/** The TCP connect scan of `run_port_scan`: every port of `range(0, 1024)` is
    tried once, sorted into open, closed or timeout by the code `connect_ex`
    returns, and an open port is asked for a banner with an HTTP/1.0
    `HEAD /` request (section 8.2 of RFC 1945). The scan's log is an output. */
module PortScanner {

  import opened Base
  import opened Strings
  import opened Seqs
  import Utf8

  /** `range(0, 1024)`: the ports scanned are `0 .. PortRangeEnd - 1`. */
  const PortRangeEnd: nat := 1024

  /** `ECONNREFUSED` on Linux and `WSAECONNREFUSED` on Windows. */
  const ConnRefusedLinux: int := 111
  const ConnRefusedWindows: int := 10061

  /** The request written to an open port and the most bytes read back. */
  const BannerRequest: seq<Utf8.byte> := [72, 69, 65, 68, 32, 47, 32, 72, 84, 84, 80, 47, 49, 46, 48, 13, 10, 13, 10]
  const BannerReadLimit: nat := 1024

  datatype PortState = Open | Closed | TimedOut

  /** How one `connect_ex` result code sorts its port. */
  function Classify(code: int): PortState {
    if code == 0 then Open
    else if code == ConnRefusedLinux || code == ConnRefusedWindows then Closed
    else TimedOut
  }

  /** What the network does when one port is probed: the `connect_ex` code,
      the measured response time in whole milliseconds, and the service
      behind the port, which answers a request with the bytes that `recv`
      returns, or with `None` when `sendall` or `recv` raises. */
  datatype PortProbe = PortProbe(code: int, responseMs: nat, service: seq<Utf8.byte> -> Option<seq<Utf8.byte>>)

  /** `grab_banner(sock)`: `None` on any exception, otherwise the first
      `BannerReadLimit` bytes of the reply decoded with `errors='ignore'`. */
  function GrabBanner(service: seq<Utf8.byte> -> Option<seq<Utf8.byte>>): Option<string> {
    match service(BannerRequest)
    case None => None
    case Some(reply) =>
      Some(Utf8.DecodeIgnore(if |reply| <= BannerReadLimit then reply else reply[..BannerReadLimit]))
  }

  /** A reply that is UTF-8 text within the read limit is the banner exactly. */
  lemma GrabBannerText(service: seq<Utf8.byte> -> Option<seq<Utf8.byte>>, text: string)
    requires service(BannerRequest) == Some(Utf8.Encode(text))
    requires |Utf8.Encode(text)| <= BannerReadLimit
    ensures GrabBanner(service) == Some(text)
  {
    Utf8.DecodeEncode(text);
  }

  /** Bytes past the read limit never reach the banner. */
  lemma GrabBannerReadsAtMostLimit(service: seq<Utf8.byte> -> Option<seq<Utf8.byte>>, head: seq<Utf8.byte>, tail: seq<Utf8.byte>)
    requires service(BannerRequest) == Some(head + tail)
    requires |head| == BannerReadLimit
    ensures GrabBanner(service) == Some(Utf8.DecodeIgnore(head))
  {
    if tail != [] {
      assert (head + tail)[..BannerReadLimit] == head;
    } else {
      assert head + tail == head;
    }
  }

  /** A failed exchange, and only a failed one, yields no banner. */
  lemma GrabBannerFails(service: seq<Utf8.byte> -> Option<seq<Utf8.byte>>)
    ensures GrabBanner(service).None? <==> service(BannerRequest).None?
  {
  }

  /** An entry of `open_ports`: `(port, response_time, banner)`. */
  datatype OpenPort = OpenPort(port: nat, responseMs: nat, banner: Option<string>)

  /** Python truthiness of the banner: present and non-empty. */
  predicate HasBanner(e: OpenPort) {
    e.banner.Some? && e.banner.value != ""
  }

  /** The ports below `n` that the scan puts in the list for `state`, in the
      order the loop visits them. */
  function PortsWith(probe: nat -> PortProbe, n: nat, state: PortState): seq<nat>
    decreases n
  {
    if n == 0 then [] else PortsWith(probe, n - 1, state) + (if Classify(probe(n - 1).code) == state then [n - 1] else [])
  }

  /** The entries the scan records for the open ports below `n`. */
  function OpenEntries(probe: nat -> PortProbe, n: nat): seq<OpenPort>
    decreases n
  {
    if n == 0 then []
    else
      var p := probe(n - 1);
      OpenEntries(probe, n - 1) + (if Classify(p.code) == Open then [OpenPort(n - 1, p.responseMs, GrabBanner(p.service))] else [])
  }

  function PortNumbers(entries: seq<OpenPort>): seq<nat> {
    Map(entries, (e: OpenPort) => e.port)
  }

  /** The open entries name exactly the open ports, in the same order. */
  lemma {:induction false} OpenEntriesAreOpenPorts(probe: nat -> PortProbe, n: nat)
    ensures PortNumbers(OpenEntries(probe, n)) == PortsWith(probe, n, Open)
    decreases n
  {
    if n > 0 {
      OpenEntriesAreOpenPorts(probe, n - 1);
      var a := OpenEntries(probe, n - 1);
      var p := probe(n - 1);
      var x := if Classify(p.code) == Open then [OpenPort(n - 1, p.responseMs, GrabBanner(p.service))] else [];
      assert OpenEntries(probe, n) == a + x;
      MapAppend(a, x, (e: OpenPort) => e.port);
      assert PortNumbers(x) == (if Classify(p.code) == Open then [n - 1] else []);
    }
  }

  /** Each open entry carries the response time and the banner of its own
      port, and lies in the range scanned. */
  lemma {:induction false} OpenEntriesCarryProbe(probe: nat -> PortProbe, n: nat, e: OpenPort)
    requires e in OpenEntries(probe, n)
    ensures e.port < n && Classify(probe(e.port).code) == Open
    ensures e.responseMs == probe(e.port).responseMs && e.banner == GrabBanner(probe(e.port).service)
    decreases n
  {
    if e in OpenEntries(probe, n - 1) {
      OpenEntriesCarryProbe(probe, n - 1, e);
    }
  }

  /** A port lands in a list exactly when its code classifies it so, and only
      ports of the range are listed. */
  lemma {:induction false} PortsWithMembers(probe: nat -> PortProbe, n: nat, state: PortState, p: nat)
    ensures p in PortsWith(probe, n, state) <==> p < n && Classify(probe(p).code) == state
    decreases n
  {
    if n > 0 {
      PortsWithMembers(probe, n - 1, state, p);
    }
  }

  /** Every port of the range is in exactly one of the three lists. */
  lemma ScanPartitionsRange(probe: nat -> PortProbe, p: nat)
    requires p < PortRangeEnd
    ensures var inOpen, inClosed, inTimeout :=
        p in PortsWith(probe, PortRangeEnd, Open),
        p in PortsWith(probe, PortRangeEnd, Closed),
        p in PortsWith(probe, PortRangeEnd, TimedOut);
      (inOpen || inClosed || inTimeout) && !(inOpen && inClosed) && !(inOpen && inTimeout) && !(inClosed && inTimeout)
  {
    PortsWithMembers(probe, PortRangeEnd, Open, p);
    PortsWithMembers(probe, PortRangeEnd, Closed, p);
    PortsWithMembers(probe, PortRangeEnd, TimedOut, p);
  }

  /** The three lists together are as long as the range. */
  lemma {:induction false} ScanCountsSum(probe: nat -> PortProbe, n: nat)
    ensures |PortsWith(probe, n, Open)| + |PortsWith(probe, n, Closed)| + |PortsWith(probe, n, TimedOut)| == n
    decreases n
  {
    if n > 0 {
      ScanCountsSum(probe, n - 1);
    }
  }

  /** Each list is in strictly ascending port order. */
  lemma {:induction false} PortsWithAscending(probe: nat -> PortProbe, n: nat, state: PortState)
    ensures |PortsWith(probe, n, state)| <= n
    ensures forall i :: 0 <= i < |PortsWith(probe, n, state)| ==> PortsWith(probe, n, state)[i] < n
    ensures Ascending(PortsWith(probe, n, state))
    decreases n
  {
    if n > 0 {
      PortsWithAscending(probe, n - 1, state);
    }
  }

  /** One `banner_results` item for an open entry: `(port, banner.strip())`
      when the banner is non-empty. */
  function BannerItem(e: OpenPort): seq<(nat, string)> {
    if HasBanner(e) then [(e.port, Strip(e.banner.value))] else []
  }

  function BannerResults(entries: seq<OpenPort>): seq<(nat, string)> {
    FlatMap(entries, BannerItem)
  }

  /** `banner_results` pairs each open port that sent a non-empty banner with
      that banner stripped, and holds nothing else. */
  lemma {:induction false} BannerResultsMembers(entries: seq<OpenPort>, port: nat, text: string)
    ensures (port, text) in BannerResults(entries) <==>
      exists e :: e in entries && HasBanner(e) && e.port == port && text == Strip(e.banner.value)
    decreases |entries|
  {
    if entries != [] {
      BannerResultsMembers(entries[1..], port, text);
      assert entries == [entries[0]] + entries[1..];
    }
  }

  /** Taking the banners of entries in strictly ascending port order within
      `[lo, hi)` yields ports in the same bounds, in strictly ascending order. */
  lemma {:induction false} BannerResultsSorted(entries: seq<OpenPort>, lo: nat, hi: nat)
    requires forall i :: 0 <= i < |entries| ==> lo <= entries[i].port < hi
    requires forall i, j :: 0 <= i < j < |entries| ==> entries[i].port < entries[j].port
    ensures var bs := BannerResults(entries);
      && (forall i :: 0 <= i < |bs| ==> lo <= bs[i].0 < hi)
      && (forall i, j :: 0 <= i < j < |bs| ==> bs[i].0 < bs[j].0)
    decreases |entries|
  {
    if entries != [] {
      var e := entries[0];
      var rest := entries[1..];
      forall i | 0 <= i < |rest|
        ensures e.port + 1 <= rest[i].port < hi
      {
        assert rest[i] == entries[i + 1];
      }
      BannerResultsSorted(rest, e.port + 1, hi);
      assert BannerResults(entries) == BannerItem(e) + BannerResults(rest);
      ConsSorted(e.port, BannerItem(e), BannerResults(rest), lo, hi);
    }
  }

  /** At most one item for `p`, followed by items above `p` in ascending
      order, is in ascending order. */
  lemma ConsSorted(p: nat, head: seq<(nat, string)>, tail: seq<(nat, string)>, lo: nat, hi: nat)
    requires lo <= p < hi && |head| <= 1
    requires forall i :: 0 <= i < |head| ==> head[i].0 == p
    requires forall i :: 0 <= i < |tail| ==> p + 1 <= tail[i].0 < hi
    requires forall i, j :: 0 <= i < j < |tail| ==> tail[i].0 < tail[j].0
    ensures var bs := head + tail;
      && (forall i :: 0 <= i < |bs| ==> lo <= bs[i].0 < hi)
      && (forall i, j :: 0 <= i < j < |bs| ==> bs[i].0 < bs[j].0)
  {
    var bs := head + tail;
    forall i, j | 0 <= i < j < |bs|
      ensures bs[i].0 < bs[j].0
    {
      if i < |head| {
        assert bs[i] == head[i];
        assert bs[j] == tail[j - |head|];
      }
    }
  }

  /** Banner results name ports of the range, in strictly ascending order,
      which is the order of the open ports. */
  lemma BannerResultsAscending(probe: nat -> PortProbe, n: nat)
    ensures var bs := BannerResults(OpenEntries(probe, n));
      && (forall i :: 0 <= i < |bs| ==> bs[i].0 < n)
      && (forall i, j :: 0 <= i < j < |bs| ==> bs[i].0 < bs[j].0)
  {
    var entries := OpenEntries(probe, n);
    OpenEntriesAreOpenPorts(probe, n);
    PortsWithAscending(probe, n, Open);
    var ports := PortNumbers(entries);
    assert forall i :: 0 <= i < |entries| ==> entries[i].port == ports[i];
    BannerResultsSorted(entries, 0, n);
  }

  // Log lines.

  function StartLine(host: string): string {
    "🔍 Starting TCP port scan on " + host + "..."
  }

  function OpenNotice(e: OpenPort): seq<string> {
    ["[OPEN] Port " + NatToString(e.port) + " is open (⏱ " + WholeFixed(e.responseMs, 2) + " ms)"]
  }

  function SummaryLines(openCount: nat, closedCount: nat, timeoutCount: nat): seq<string> {
    [ "\n📊 Scan Summary:",
      " - Total ports scanned: " + NatToString(PortRangeEnd),
      " - Open ports: " + NatToString(openCount),
      " - Closed ports: " + NatToString(closedCount),
      " - No response (timeout): " + NatToString(timeoutCount) ]
  }

  const OpenListHeader: string := "\n🔓 List of Open Ports:"
  const NoOpenPorts: string := "✅ No open ports found."
  const UnknownService: string := "     ⚠\U{FE0F} Unknown service (no banner received)"
  const BannerListHeader: string := "\n🧩 Identified Services via Banner:"
  const NoBanners: string := "\nℹ\U{FE0F} No service banners were captured."

  /** The two detail lines of one open port: its response time, then its
      service (the stripped banner) or the unknown-service line. */
  function PortDetail(e: OpenPort): seq<string> {
    [ "  → Port " + NatToString(e.port) + " | Response in " + WholeFixed(e.responseMs, 2) + " ms",
      if HasBanner(e) then "     ⚡ Detected Service: " + Strip(e.banner.value) else UnknownService ]
  }

  function DetailLines(entries: seq<OpenPort>): seq<string> {
    if entries == [] then [NoOpenPorts] else [OpenListHeader] + FlatMap(entries, PortDetail)
  }

  function BannerLine(b: (nat, string)): seq<string> {
    [" - Port " + NatToString(b.0) + ": " + b.1]
  }

  function BannerLines(banners: seq<(nat, string)>): seq<string> {
    if banners == [] then [NoBanners] else [BannerListHeader] + FlatMap(banners, BannerLine)
  }

  /** Everything `run_port_scan` logs for the probed network. */
  function ScanLog(host: string, probe: nat -> PortProbe): seq<string> {
    var entries := OpenEntries(probe, PortRangeEnd);
    [StartLine(host)] + FlatMap(entries, OpenNotice)
    + SummaryLines(|entries|, |PortsWith(probe, PortRangeEnd, Closed)|, |PortsWith(probe, PortRangeEnd, TimedOut)|)
    + DetailLines(entries) + BannerLines(BannerResults(entries))
  }

  /** Each open port has exactly two detail lines, at positions `2i` and
      `2i + 1` of the list: the response-time line, then either its service
      line or the unknown-service line. */
  lemma PortDetailPositions(entries: seq<OpenPort>, i: nat)
    requires i < |entries|
    ensures |FlatMap(entries, PortDetail)| == 2 * |entries|
    ensures FlatMap(entries, PortDetail)[2 * i] == PortDetail(entries[i])[0]
    ensures FlatMap(entries, PortDetail)[2 * i + 1] ==
      (if HasBanner(entries[i]) then "     ⚡ Detected Service: " + Strip(entries[i].banner.value) else UnknownService)
  {
    FlatMapTwoEach(entries, PortDetail, i);
  }

  /** The detail section lists the open ports when there are any and
      otherwise is the single no-open-ports line. */
  lemma DetailSection(entries: seq<OpenPort>)
    ensures entries == [] ==> DetailLines(entries) == [NoOpenPorts]
    ensures entries != [] ==> |DetailLines(entries)| == 1 + 2 * |entries| && DetailLines(entries)[0] == OpenListHeader
  {
    if entries != [] {
      PortDetailPositions(entries, 0);
    }
  }

  /** What the scan has recorded once the ports below `port` are probed. */
  predicate Scanned(probe: nat -> PortProbe, port: nat,
                    notices: seq<string>, openPorts: seq<OpenPort>, closedPorts: seq<nat>,
                    timeoutPorts: seq<nat>, bannerResults: seq<(nat, string)>)
  {
    && openPorts == OpenEntries(probe, port)
    && closedPorts == PortsWith(probe, port, Closed)
    && timeoutPorts == PortsWith(probe, port, TimedOut)
    && bannerResults == BannerResults(openPorts)
    && notices == FlatMap(openPorts, OpenNotice)
  }

  /** One turn of the scan loop: probe `port` and record it in the list its
      code selects; an open port also gets its banner and its `[OPEN]` line. */
  method ScanPort(probe: nat -> PortProbe, port: nat,
                  notices: seq<string>, openPorts: seq<OpenPort>, closedPorts: seq<nat>,
                  timeoutPorts: seq<nat>, bannerResults: seq<(nat, string)>)
    returns (notices': seq<string>, openPorts': seq<OpenPort>, closedPorts': seq<nat>,
             timeoutPorts': seq<nat>, bannerResults': seq<(nat, string)>)
    requires Scanned(probe, port, notices, openPorts, closedPorts, timeoutPorts, bannerResults)
    ensures Scanned(probe, port + 1, notices', openPorts', closedPorts', timeoutPorts', bannerResults')
  {
    notices', openPorts', closedPorts', timeoutPorts', bannerResults' := notices, openPorts, closedPorts, timeoutPorts, bannerResults;
    var p := probe(port);
    var result := p.code;
    if result == 0 {
      var entry := OpenPort(port, p.responseMs, GrabBanner(p.service));
      FlatMapSnoc(openPorts, entry, OpenNotice);
      FlatMapSnoc(openPorts, entry, BannerItem);
      notices' := notices + OpenNotice(entry);
      openPorts' := openPorts + [entry];
      if HasBanner(entry) {
        bannerResults' := bannerResults + [(port, Strip(entry.banner.value))];
      }
    } else if result == ConnRefusedLinux || result == ConnRefusedWindows {
      closedPorts' := closedPorts + [port];
    } else {
      timeoutPorts' := timeoutPorts + [port];
    }
  }

  /** The scan loop of `run_port_scan`: one `connect_ex` per port of the
      range, each port appended to the list its code selects, a banner asked
      of each open port and an `[OPEN]` line logged for it. */
  method ScanRange(probe: nat -> PortProbe)
    returns (notices: seq<string>, openPorts: seq<OpenPort>, closedPorts: seq<nat>, timeoutPorts: seq<nat>, bannerResults: seq<(nat, string)>)
    ensures openPorts == OpenEntries(probe, PortRangeEnd)
    ensures closedPorts == PortsWith(probe, PortRangeEnd, Closed)
    ensures timeoutPorts == PortsWith(probe, PortRangeEnd, TimedOut)
    ensures bannerResults == BannerResults(openPorts)
    ensures notices == FlatMap(openPorts, OpenNotice)
  {
    notices, openPorts, closedPorts, timeoutPorts, bannerResults := [], [], [], [], [];
    for port := 0 to PortRangeEnd
      invariant Scanned(probe, port, notices, openPorts, closedPorts, timeoutPorts, bannerResults)
    {
      notices, openPorts, closedPorts, timeoutPorts, bannerResults :=
        ScanPort(probe, port, notices, openPorts, closedPorts, timeoutPorts, bannerResults);
    }
  }

  /** The open-port details of the summary. */
  method LogOpenPortDetails(openPorts: seq<OpenPort>) returns (lines: seq<string>)
    ensures lines == DetailLines(openPorts)
  {
    if openPorts == [] {
      return [NoOpenPorts];
    }
    lines := [OpenListHeader];
    for i := 0 to |openPorts|
      invariant lines == [OpenListHeader] + FlatMap(openPorts[..i], PortDetail)
    {
      var e := openPorts[i];
      assert openPorts[..i + 1] == openPorts[..i] + [e];
      FlatMapSnoc(openPorts[..i], e, PortDetail);
      lines := lines + ["  → Port " + NatToString(e.port) + " | Response in " + WholeFixed(e.responseMs, 2) + " ms"];
      if HasBanner(e) {
        lines := lines + ["     ⚡ Detected Service: " + Strip(e.banner.value)];
      } else {
        lines := lines + [UnknownService];
      }
    }
    assert openPorts[..|openPorts|] == openPorts;
  }

  /** The banner section of the summary. */
  method LogBanners(bannerResults: seq<(nat, string)>) returns (lines: seq<string>)
    ensures lines == BannerLines(bannerResults)
  {
    if bannerResults == [] {
      return [NoBanners];
    }
    lines := [BannerListHeader];
    for i := 0 to |bannerResults|
      invariant lines == [BannerListHeader] + FlatMap(bannerResults[..i], BannerLine)
    {
      assert bannerResults[..i + 1] == bannerResults[..i] + [bannerResults[i]];
      FlatMapSnoc(bannerResults[..i], bannerResults[i], BannerLine);
      lines := lines + [" - Port " + NatToString(bannerResults[i].0) + ": " + bannerResults[i].1];
    }
    assert bannerResults[..|bannerResults|] == bannerResults;
  }

  /** `run_port_scan(log, target_host)`: the scan loop over the range, then
      the summary. Besides the log it returns the four lists the loop builds. */
  method RunPortScan(host: string, probe: nat -> PortProbe)
    returns (log: seq<string>, openPorts: seq<OpenPort>, closedPorts: seq<nat>, timeoutPorts: seq<nat>, bannerResults: seq<(nat, string)>)
    ensures openPorts == OpenEntries(probe, PortRangeEnd)
    ensures closedPorts == PortsWith(probe, PortRangeEnd, Closed)
    ensures timeoutPorts == PortsWith(probe, PortRangeEnd, TimedOut)
    ensures bannerResults == BannerResults(openPorts)
    ensures log == ScanLog(host, probe)
  {
    var notices;
    notices, openPorts, closedPorts, timeoutPorts, bannerResults := ScanRange(probe);
    log := [StartLine(host)] + notices;
    log := log + SummaryLines(|openPorts|, |closedPorts|, |timeoutPorts|);
    var details := LogOpenPortDetails(openPorts);
    log := log + details;
    var banners := LogBanners(bannerResults);
    log := log + banners;
  }
}
