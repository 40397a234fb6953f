/** `analyze_results`: a fixed sequence of threshold rules that turns a results
    record with optional sections into report lines between a fixed header
    and footer, joined with newlines. */
module Predictor {

  import opened Base
  import opened Strings
  import opened Seqs

  /** The `speed` section. A missing key reads as 0 (`.get(key, 0)`). */
  datatype Speed = Speed(download: Option<int>, upload: Option<int>, latency: Option<int>)

  /** The `ipv6` section: the truthiness of each key that `.get` reads, a
      missing key being falsy. */
  datatype Ipv6Flags = Ipv6Flags(
    supported: bool, publicAddress: bool, linkLocal: bool, temporaryDisabled: bool,
    slaacActive: bool, routerAdvertisement: bool, ipsecEnabled: bool)

  /** The `best` entry of the `dns` section; `None` stands for a missing,
      `None` or empty entry, all of which are falsy. */
  datatype BestDns = BestDns(name: string, ip: string, latency: int)

  datatype DnsSummary = DnsSummary(best: Option<BestDns>, hijacking: bool, dohEnabled: bool)

  /** The `dns_cache` section: its `ttl`, if any. */
  datatype DnsCache = DnsCache(ttl: Option<int>)

  /** A results record: `None` for each key that is absent. */
  datatype Results = Results(
    speed: Option<Speed>, ipv6: Option<Ipv6Flags>, dns: Option<DnsSummary>,
    dnsCache: Option<DnsCache>, location: Option<string>)

  /** One line of the report, named by the rule that emits it. */
  datatype Finding =
    | Header
    | DownloadCritical | DownloadModerate | DownloadGood
    | UploadVeryLow
    | HighLatency(ms: int) | LatencyOk(ms: int)
    | Ipv6Unsupported
    | PublicAddress | LinkLocal | TemporaryDisabled | Slaac | SuspiciousRa | Ipsec
    | BestDnsLine(best: BestDns)
    | HijackSuspected
    | DohEnabled
    | CacheActive(ttl: int)
    | LocationLine(loc: string)
    | Footer

  /** The report line of each finding. */
  function Render(f: Finding): string {
    match f
    case Header => "📊 Results Analysis:"
    case DownloadCritical => "🚨 Download speed is critically low."
    case DownloadModerate => "⚠ Download speed is moderate."
    case DownloadGood => "✅ Download speed is good."
    case UploadVeryLow => "🚨 Upload speed is very low."
    case HighLatency(ms) => "⚠ High latency detected (" + IntToString(ms) + " ms)."
    case LatencyOk(ms) => "⏱ Latency is within acceptable range (" + IntToString(ms) + " ms)."
    case Ipv6Unsupported => "⚠ IPv6 is not supported."
    case PublicAddress => "✅ Public IPv6 address detected."
    case LinkLocal => "ℹ Link-Local address present."
    case TemporaryDisabled => "🔒 Temporary IPv6 (Privacy Extension) is disabled."
    case Slaac => "📡 SLAAC is active."
    case SuspiciousRa => "⚠ Warning: Suspicious Router Advertisement (RA) detected."
    case Ipsec => "🔐 IPsec is enabled."
    case BestDnsLine(b) => "🏆 Best DNS: " + b.name + " (" + b.ip + ") with " + IntToString(b.latency) + " ms"
    case HijackSuspected => "🚨 DNS Hijacking is suspected!"
    case DohEnabled => "🔒 DNS over HTTPS (DoH) is enabled."
    case CacheActive(ttl) => "🧠 DNS cache is active. Average TTL: " + IntToString(ttl) + " seconds"
    case LocationLine(loc) => "🌍 Location: " + loc
    case Footer => "📌 End of analysis."
  }

  function OrZero(v: Option<int>): int {
    if v.Some? then v.value else 0
  }

  // The rules, section by section.

  function DownloadVerdictOf(download: int): Finding {
    if download < 10 then DownloadCritical else if download < 25 then DownloadModerate else DownloadGood
  }

  function LatencyVerdictOf(latency: int): Finding {
    if latency > 300 then HighLatency(latency) else LatencyOk(latency)
  }

  function SpeedFindings(s: Speed): seq<Finding> {
    [DownloadVerdictOf(OrZero(s.download))]
    + (if OrZero(s.upload) < 2 then [UploadVeryLow] else [])
    + [LatencyVerdictOf(OrZero(s.latency))]
  }

  /** The IPv6 checks in the order they run, each with its flag. */
  function Ipv6Checks(v: Ipv6Flags): seq<(bool, Finding)> {
    [ (v.publicAddress, PublicAddress), (v.linkLocal, LinkLocal), (v.temporaryDisabled, TemporaryDisabled),
      (v.slaacActive, Slaac), (v.routerAdvertisement, SuspiciousRa), (v.ipsecEnabled, Ipsec) ]
  }

  function Ipv6Findings(v: Ipv6Flags): seq<Finding> {
    if !v.supported then [Ipv6Unsupported] else Pick(Ipv6Checks(v))
  }

  function DnsFindings(d: DnsSummary): seq<Finding> {
    (if d.best.Some? then [BestDnsLine(d.best.value)] else [])
    + (if d.hijacking then [HijackSuspected] else [])
    + (if d.dohEnabled then [DohEnabled] else [])
  }

  /** `if ttl:` — an absent or zero TTL emits nothing. */
  function CacheFindings(c: DnsCache): seq<Finding> {
    if c.ttl.Some? && c.ttl.value != 0 then [CacheActive(c.ttl.value)] else []
  }

  function SpeedSection(r: Results): seq<Finding> {
    if r.speed.Some? then SpeedFindings(r.speed.value) else []
  }

  function Ipv6Section(r: Results): seq<Finding> {
    if r.ipv6.Some? then Ipv6Findings(r.ipv6.value) else []
  }

  function DnsSection(r: Results): seq<Finding> {
    if r.dns.Some? then DnsFindings(r.dns.value) else []
  }

  function CacheSection(r: Results): seq<Finding> {
    if r.dnsCache.Some? then CacheFindings(r.dnsCache.value) else []
  }

  function LocationSection(r: Results): seq<Finding> {
    if r.location.Some? then [LocationLine(r.location.value)] else []
  }

  /** The sections of the report in the order they are written: 0 the
      header, 1 speed, 2 IPv6, 3 DNS, 4 DNS cache, 5 location, 6 the footer.
      A section whose key is absent is empty. */
  function Sections(r: Results): (ss: seq<seq<Finding>>)
    ensures |ss| == 7
  {
    [[Header], SpeedSection(r), Ipv6Section(r), DnsSection(r), CacheSection(r), LocationSection(r), [Footer]]
  }

  /** The findings of `analyze_results`, in the order it appends them. */
  function Findings(r: Results): seq<Finding> {
    Concat(Sections(r))
  }

  /** The lines of a list of findings, in order. */
  function RenderAll(fs: seq<Finding>): (lines: seq<string>)
    ensures |lines| == |fs|
    decreases |fs|
  {
    if fs == [] then [] else RenderAll(fs[..|fs| - 1]) + [Render(fs[|fs| - 1])]
  }

  /** Line `i` renders finding `i`. */
  lemma {:induction false} RenderAllIndex(fs: seq<Finding>, i: nat)
    requires i < |fs|
    ensures RenderAll(fs)[i] == Render(fs[i])
    decreases |fs|
  {
    if i < |fs| - 1 {
      RenderAllIndex(fs[..|fs| - 1], i);
    }
  }

  function ReportLines(r: Results): seq<string> {
    RenderAll(Findings(r))
  }

  /** The report written out section after section. */
  lemma FindingsFlat(r: Results)
    ensures Findings(r) == [Header] + SpeedSection(r) + Ipv6Section(r) + DnsSection(r)
      + CacheSection(r) + LocationSection(r) + [Footer]
  {
    ConcatSeven([Header], SpeedSection(r), Ipv6Section(r), DnsSection(r), CacheSection(r), LocationSection(r), [Footer]);
  }

  // The method, section by section as the source writes it. Each
  // `report.append(line)` appends the finding whose rendering is that line.

  /** The speed analysis. */
  method AnalyzeSpeed(s: Speed) returns (found: seq<Finding>)
    ensures found == SpeedFindings(s)
  {
    var download, upload, latency := OrZero(s.download), OrZero(s.upload), OrZero(s.latency);
    if download < 10 {
      found := [DownloadCritical];
    } else if download < 25 {
      found := [DownloadModerate];
    } else {
      found := [DownloadGood];
    }
    if upload < 2 {
      found := found + [UploadVeryLow];
    }
    if latency > 300 {
      found := found + [HighLatency(latency)];
    } else {
      found := found + [LatencyOk(latency)];
    }
  }

  /** `if flag: report.append(line)`. */
  method AppendIf(found: seq<Finding>, flag: bool, f: Finding) returns (found': seq<Finding>)
    ensures found' == found + (if flag then [f] else [])
  {
    found' := found;
    if flag {
      found' := found' + [f];
    }
  }

  /** The IPv6 analysis: the not-supported line, or one line per truthy flag
      checked in a fixed order. */
  method AnalyzeIpv6(v: Ipv6Flags) returns (found: seq<Finding>)
    ensures found == Ipv6Findings(v)
  {
    if !v.supported {
      return [Ipv6Unsupported];
    }
    found := [];
    found := AppendIf(found, v.publicAddress, PublicAddress);
    found := AppendIf(found, v.linkLocal, LinkLocal);
    found := AppendIf(found, v.temporaryDisabled, TemporaryDisabled);
    found := AppendIf(found, v.slaacActive, Slaac);
    found := AppendIf(found, v.routerAdvertisement, SuspiciousRa);
    found := AppendIf(found, v.ipsecEnabled, Ipsec);
    PickSix(Ipv6Checks(v));
  }

  /** The DNS analysis: best server, hijacking and DoH, each on its own. */
  method AnalyzeDns(d: DnsSummary) returns (found: seq<Finding>)
    ensures found == DnsFindings(d)
  {
    found := [];
    if d.best.Some? {
      found := found + [BestDnsLine(d.best.value)];
    }
    if d.hijacking {
      found := found + [HijackSuspected];
    }
    if d.dohEnabled {
      found := found + [DohEnabled];
    }
  }

  /** `analyze_results(results)`: the report lines appended rule by rule and
      joined with newlines. */
  method AnalyzeResults(r: Results) returns (text: string)
    ensures text == Join(ReportLines(r), "\n")
  {
    var report: seq<Finding> := [Header];
    if r.speed.Some? {
      var found := AnalyzeSpeed(r.speed.value);
      report := report + found;
    }
    assert report == [Header] + SpeedSection(r);
    if r.ipv6.Some? {
      var found := AnalyzeIpv6(r.ipv6.value);
      report := report + found;
    }
    assert report == [Header] + SpeedSection(r) + Ipv6Section(r);
    if r.dns.Some? {
      var found := AnalyzeDns(r.dns.value);
      report := report + found;
    }
    assert report == [Header] + SpeedSection(r) + Ipv6Section(r) + DnsSection(r);
    if r.dnsCache.Some? {
      var ttl := r.dnsCache.value.ttl;
      if ttl.Some? && ttl.value != 0 {
        report := report + [CacheActive(ttl.value)];
      }
    }
    assert report == [Header] + SpeedSection(r) + Ipv6Section(r) + DnsSection(r) + CacheSection(r);
    if r.location.Some? {
      report := report + [LocationLine(r.location.value)];
    }
    assert report == [Header] + SpeedSection(r) + Ipv6Section(r) + DnsSection(r) + CacheSection(r) + LocationSection(r);
    report := report + [Footer];
    FindingsFlat(r);
    text := Join(RenderAll(report), "\n");
  }

  // What the report promises.

  /** The section each finding belongs to. */
  function SectionOf(f: Finding): int {
    match f
    case Header => 0
    case DownloadCritical => 1
    case DownloadModerate => 1
    case DownloadGood => 1
    case UploadVeryLow => 1
    case HighLatency(_) => 1
    case LatencyOk(_) => 1
    case BestDnsLine(_) => 3
    case HijackSuspected => 3
    case DohEnabled => 3
    case CacheActive(_) => 4
    case LocationLine(_) => 5
    case Footer => 6
    case _ => 2
  }

  /** Whether the record has the key of a section; the header and the footer
      need none. */
  predicate HasSection(r: Results, k: int) {
    (k == 1 ==> r.speed.Some?) && (k == 2 ==> r.ipv6.Some?) && (k == 3 ==> r.dns.Some?)
    && (k == 4 ==> r.dnsCache.Some?) && (k == 5 ==> r.location.Some?)
  }

  /** The speed section holds speed findings only, and only when the record
      has one. */
  lemma SpeedSectionKeyed(r: Results, f: Finding)
    requires f in SpeedSection(r)
    ensures SectionOf(f) == 1 && r.speed.Some?
  {
  }

  /** The IPv6 section holds IPv6 findings only. */
  lemma Ipv6SectionKeyed(r: Results, f: Finding)
    requires f in Ipv6Section(r)
    ensures SectionOf(f) == 2 && r.ipv6.Some?
  {
    if r.ipv6.value.supported {
      PickMembers(Ipv6Checks(r.ipv6.value), f);
    }
  }

  /** The DNS section holds DNS findings only. */
  lemma DnsSectionKeyed(r: Results, f: Finding)
    requires f in DnsSection(r)
    ensures SectionOf(f) == 3 && r.dns.Some?
  {
  }

  /** Every finding of part `k` belongs to section `k`. */
  predicate Keyed(ss: seq<seq<Finding>>) {
    forall k, f :: 0 <= k < |ss| && f in ss[k] ==> SectionOf(f) == k
  }

  lemma KeyedSeven(a: seq<Finding>, b: seq<Finding>, c: seq<Finding>, d: seq<Finding>,
                   e: seq<Finding>, f: seq<Finding>, g: seq<Finding>)
    requires forall x :: x in a ==> SectionOf(x) == 0
    requires forall x :: x in b ==> SectionOf(x) == 1
    requires forall x :: x in c ==> SectionOf(x) == 2
    requires forall x :: x in d ==> SectionOf(x) == 3
    requires forall x :: x in e ==> SectionOf(x) == 4
    requires forall x :: x in f ==> SectionOf(x) == 5
    requires forall x :: x in g ==> SectionOf(x) == 6
    ensures Keyed([a, b, c, d, e, f, g])
  {
  }

  /** Each section holds only its own findings. */
  lemma SectionsKeyed(r: Results)
    ensures Keyed(Sections(r))
  {
    forall x | x in SpeedSection(r)
      ensures SectionOf(x) == 1
    {
      SpeedSectionKeyed(r, x);
    }
    forall x | x in Ipv6Section(r)
      ensures SectionOf(x) == 2
    {
      Ipv6SectionKeyed(r, x);
    }
    forall x | x in DnsSection(r)
      ensures SectionOf(x) == 3
    {
      DnsSectionKeyed(r, x);
    }
    KeyedSeven([Header], SpeedSection(r), Ipv6Section(r), DnsSection(r), CacheSection(r), LocationSection(r), [Footer]);
  }

  /** A non-empty section has its key in the record. */
  lemma SectionPresent(r: Results, k: int, f: Finding)
    requires 0 <= k < 7 && f in Sections(r)[k]
    ensures HasSection(r, k)
  {
    var ss := Sections(r);
    if k == 1 {
      assert ss[1] == SpeedSection(r);
      SpeedSectionKeyed(r, f);
    } else if k == 2 {
      assert ss[2] == Ipv6Section(r);
      Ipv6SectionKeyed(r, f);
    } else if k == 3 {
      assert ss[3] == DnsSection(r);
      DnsSectionKeyed(r, f);
    } else if k == 4 {
      assert ss[4] == CacheSection(r);
    } else if k == 5 {
      assert ss[5] == LocationSection(r);
    }
  }

  lemma KeyedFilterOne(ss: seq<seq<Finding>>, p: Finding -> bool, j: int)
    requires Keyed(ss) && 0 <= j < |ss|
    requires forall f :: p(f) ==> SectionOf(f) == j
    ensures Filter(Concat(ss), p) == Filter(ss[j], p)
  {
    ConcatFilterOne(ss, p, j);
  }

  lemma KeyedMembers(ss: seq<seq<Finding>>, f: Finding)
    requires Keyed(ss)
    ensures f in Concat(ss) <==> 0 <= SectionOf(f) < |ss| && f in ss[SectionOf(f)]
  {
    ConcatKeyedMembers(ss, SectionOf, f);
  }

  lemma KeyedOrdered(ss: seq<seq<Finding>>)
    requires Keyed(ss)
    ensures forall i, j :: 0 <= i < j < |Concat(ss)| ==> SectionOf(Concat(ss)[i]) <= SectionOf(Concat(ss)[j])
  {
    ConcatKeyOrdered(ss, SectionOf, 0);
  }

  /** Filtering the report for the findings of one section sees only that
      section. */
  lemma FilterOneSection(r: Results, p: Finding -> bool, j: int)
    requires 0 <= j < 7
    requires forall f :: p(f) ==> SectionOf(f) == j
    ensures Filter(Findings(r), p) == Filter(Sections(r)[j], p)
  {
    SectionsKeyed(r);
    KeyedFilterOne(Sections(r), p, j);
  }

  /** A finding is in the report exactly when it is in its own section. */
  lemma InReport(r: Results, f: Finding)
    ensures 0 <= SectionOf(f) < 7
    ensures f in Findings(r) <==> f in Sections(r)[SectionOf(f)]
  {
    SectionsKeyed(r);
    KeyedMembers(Sections(r), f);
  }

  /** The report opens with the header and closes with the footer, each of
      which appears exactly once. */
  lemma ReportFrame(r: Results)
    ensures var fs := Findings(r);
      && |fs| >= 2 && fs[0] == Header && fs[|fs| - 1] == Footer
      && Filter(fs, f => f == Header) == [Header] && Filter(fs, f => f == Footer) == [Footer]
  {
    FindingsFlat(r);
    HeaderOnce(r);
    FooterOnce(r);
  }

  lemma HeaderOnce(r: Results)
    ensures Filter(Findings(r), f => f == Header) == [Header]
  {
    FilterOneSection(r, f => f == Header, 0);
    assert Filter([Header], f => f == Header) == [Header];
  }

  lemma FooterOnce(r: Results)
    ensures Filter(Findings(r), f => f == Footer) == [Footer]
  {
    FilterOneSection(r, f => f == Footer, 6);
    assert Filter([Footer], f => f == Footer) == [Footer];
  }

  /** The first report line is the header line and the last the footer
      line. */
  lemma ReportLinesFrame(r: Results)
    ensures var lines := ReportLines(r);
      |lines| >= 2 && lines[0] == "📊 Results Analysis:" && lines[|lines| - 1] == "📌 End of analysis."
  {
    var fs := Findings(r);
    assert |fs| >= 2 && fs[0] == Header && fs[|fs| - 1] == Footer by {
      ReportFrame(r);
    }
    RenderFrame(fs);
  }

  lemma RenderFrame(fs: seq<Finding>)
    requires |fs| >= 2 && fs[0] == Header && fs[|fs| - 1] == Footer
    ensures var lines := RenderAll(fs);
      lines[0] == "📊 Results Analysis:" && lines[|lines| - 1] == "📌 End of analysis."
  {
    RenderAllIndex(fs, 0);
    RenderAllIndex(fs, |fs| - 1);
  }

  /** The joined text starts with the header line and ends with the footer. */
  lemma ReportTextFrame(r: Results, text: string)
    requires text == Join(ReportLines(r), "\n")
    ensures IsPrefix("📊 Results Analysis:", text)
    ensures |text| >= |"📌 End of analysis."| && text[|text| - |"📌 End of analysis."|..] == "📌 End of analysis."
  {
    ReportLinesFrame(r);
    JoinFrame(ReportLines(r), "\n");
  }

  /** `sep.join(parts)` of one or more parts starts with the first part and
      ends with the last. */
  lemma {:induction false} JoinFrame(parts: seq<string>, sep: string)
    requires |parts| >= 1
    ensures var s := Join(parts, sep);
      && IsPrefix(parts[0], s)
      && |s| >= |parts[|parts| - 1]| && s[|s| - |parts[|parts| - 1]|..] == parts[|parts| - 1]
    decreases |parts|
  {
    if |parts| > 1 {
      JoinFrame(parts[1..], sep);
      var s := Join(parts, sep);
      var t := Join(parts[1..], sep);
      assert s == parts[0] + (sep + t);
      assert s[..|parts[0]|] == parts[0];
      var last := parts[|parts| - 1];
      assert parts[1..][|parts[1..]| - 1] == last;
      assert s[|s| - |last|..] == t[|t| - |last|..];
    }
  }

  /** A record with no sections yields exactly the header and the footer. */
  lemma EmptyResults()
    ensures ReportLines(Results(None, None, None, None, None)) == ["📊 Results Analysis:", "📌 End of analysis."]
  {
    var r := Results(None, None, None, None, None);
    FindingsFlat(r);
    var fs := Findings(r);
    assert fs == [Header, Footer];
    assert fs[..1] == [Header];
  }

  predicate IsDownloadVerdict(f: Finding) {
    f == DownloadCritical || f == DownloadModerate || f == DownloadGood
  }

  predicate IsLatencyVerdict(f: Finding) {
    f.HighLatency? || f.LatencyOk?
  }

  /** Filtering the speed findings, block by block. */
  lemma SpeedSectionFilter(s: Speed, p: Finding -> bool)
    ensures Filter(SpeedFindings(s), p) ==
      Filter([DownloadVerdictOf(OrZero(s.download))], p)
      + Filter(if OrZero(s.upload) < 2 then [UploadVeryLow] else [], p)
      + Filter([LatencyVerdictOf(OrZero(s.latency))], p)
  {
    var a := [DownloadVerdictOf(OrZero(s.download))];
    var b := if OrZero(s.upload) < 2 then [UploadVeryLow] else [];
    var c := [LatencyVerdictOf(OrZero(s.latency))];
    FilterAppend(a + b, c, p);
    FilterAppend(a, b, p);
  }

  /** With a speed section the report holds exactly one download verdict,
      chosen by the thresholds 10 and 25 on the download (0 when missing);
      without one it holds none. */
  lemma DownloadVerdict(r: Results)
    ensures var verdicts := Filter(Findings(r), IsDownloadVerdict);
      if r.speed.None? then verdicts == []
      else
        var d := OrZero(r.speed.value.download);
        verdicts == [if d < 10 then DownloadCritical else if d < 25 then DownloadModerate else DownloadGood]
  {
    FilterOneSection(r, IsDownloadVerdict, 1);
    assert Sections(r)[1] == SpeedSection(r);
    if r.speed.Some? {
      SpeedDownloadVerdicts(r.speed.value);
    }
  }

  /** The download verdicts of one speed section. */
  lemma SpeedDownloadVerdicts(s: Speed)
    ensures Filter(SpeedFindings(s), IsDownloadVerdict) == [DownloadVerdictOf(OrZero(s.download))]
  {
    SpeedSectionFilter(s, IsDownloadVerdict);
    var verdict := DownloadVerdictOf(OrZero(s.download));
    assert Filter([verdict], IsDownloadVerdict) == [verdict];
    assert Filter(if OrZero(s.upload) < 2 then [UploadVeryLow] else [], IsDownloadVerdict) == [];
    assert Filter([LatencyVerdictOf(OrZero(s.latency))], IsDownloadVerdict) == [];
  }

  /** The upload warning is present exactly when there is a speed section
      whose upload (0 when missing) is below 2. */
  lemma UploadWarning(r: Results)
    ensures UploadVeryLow in Findings(r) <==> r.speed.Some? && OrZero(r.speed.value.upload) < 2
  {
    InReport(r, UploadVeryLow);
  }

  /** With a speed section the report holds exactly one latency verdict: high
      above 300 ms, otherwise within range, on the latency (0 when missing). */
  lemma LatencyVerdict(r: Results)
    ensures var verdicts := Filter(Findings(r), IsLatencyVerdict);
      if r.speed.None? then verdicts == []
      else
        var l := OrZero(r.speed.value.latency);
        verdicts == [if l > 300 then HighLatency(l) else LatencyOk(l)]
  {
    FilterOneSection(r, IsLatencyVerdict, 1);
    assert Sections(r)[1] == SpeedSection(r);
    if r.speed.Some? {
      SpeedLatencyVerdicts(r.speed.value);
    }
  }

  /** The latency verdicts of one speed section. */
  lemma SpeedLatencyVerdicts(s: Speed)
    ensures Filter(SpeedFindings(s), IsLatencyVerdict) == [LatencyVerdictOf(OrZero(s.latency))]
  {
    SpeedSectionFilter(s, IsLatencyVerdict);
    var verdict := LatencyVerdictOf(OrZero(s.latency));
    assert Filter([DownloadVerdictOf(OrZero(s.download))], IsLatencyVerdict) == [];
    assert Filter(if OrZero(s.upload) < 2 then [UploadVeryLow] else [], IsLatencyVerdict) == [];
    assert Filter([verdict], IsLatencyVerdict) == [verdict];
  }

  /** The findings that report on IPv6 support and addresses. */
  predicate IsIpv6Finding(f: Finding) {
    SectionOf(f) == 2
  }

  /** The IPv6 findings of a report are exactly those of its IPv6 section. */
  lemma Ipv6FindingsOfReport(r: Results)
    ensures Filter(Findings(r), IsIpv6Finding) == Ipv6Section(r)
  {
    FilterOneSection(r, IsIpv6Finding, 2);
    var sec := Ipv6Section(r);
    forall i | 0 <= i < |sec|
      ensures IsIpv6Finding(sec[i])
    {
      Ipv6SectionKeyed(r, sec[i]);
    }
    FilterAll(sec, IsIpv6Finding);
  }

  /** IPv6 unsupported (or the flag missing): the single not-supported line
      and none of the sub-lines. */
  lemma Ipv6NotSupported(r: Results)
    requires r.ipv6.Some? && !r.ipv6.value.supported
    ensures Filter(Findings(r), IsIpv6Finding) == [Ipv6Unsupported]
  {
    Ipv6FindingsOfReport(r);
  }

  /** Whether the IPv6 flags ask for a given sub-line. */
  predicate FlagFor(v: Ipv6Flags, f: Finding) {
    match f
    case PublicAddress => v.publicAddress
    case LinkLocal => v.linkLocal
    case TemporaryDisabled => v.temporaryDisabled
    case Slaac => v.slaacActive
    case SuspiciousRa => v.routerAdvertisement
    case Ipsec => v.ipsecEnabled
    case _ => false
  }

  /** Where each IPv6 sub-line stands in the fixed order of the checks. */
  function Ipv6Rank(f: Finding): int {
    match f
    case PublicAddress => 0
    case LinkLocal => 1
    case TemporaryDisabled => 2
    case Slaac => 3
    case SuspiciousRa => 4
    case Ipsec => 5
    case _ => 6
  }

  /** IPv6 supported: a sub-line for exactly each truthy flag, and no
      not-supported line. */
  lemma Ipv6Supported(r: Results)
    requires r.ipv6.Some? && r.ipv6.value.supported
    ensures forall f :: f in Filter(Findings(r), IsIpv6Finding) <==> FlagFor(r.ipv6.value, f)
  {
    var v := r.ipv6.value;
    assert Filter(Findings(r), IsIpv6Finding) == Pick(Ipv6Checks(v)) by {
      Ipv6FindingsOfReport(r);
    }
    Ipv6PickMembers(v);
  }

  /** The sub-lines picked from the flags are exactly the flagged ones. */
  lemma Ipv6PickMembers(v: Ipv6Flags)
    ensures forall f :: f in Pick(Ipv6Checks(v)) <==> FlagFor(v, f)
  {
    forall f
      ensures f in Pick(Ipv6Checks(v)) <==> FlagFor(v, f)
    {
      PickMembers(Ipv6Checks(v), f);
      Ipv6Flagged(v, f);
    }
  }

  /** A sub-line is among the set checks exactly when its flag is set. */
  lemma Ipv6Flagged(v: Ipv6Flags, f: Finding)
    ensures (true, f) in Ipv6Checks(v) <==> FlagFor(v, f)
  {
  }

  /** The IPv6 sub-lines come in the fixed order public address, link-local,
      temporary disabled, SLAAC, router advertisement, IPsec. */
  lemma Ipv6SubLineOrder(r: Results)
    requires r.ipv6.Some? && r.ipv6.value.supported
    ensures var subs := Filter(Findings(r), IsIpv6Finding);
      forall i, j :: 0 <= i < j < |subs| ==> Ipv6Rank(subs[i]) < Ipv6Rank(subs[j])
  {
    var v := r.ipv6.value;
    assert Filter(Findings(r), IsIpv6Finding) == Pick(Ipv6Checks(v)) by {
      Ipv6FindingsOfReport(r);
    }
    PickKeepsOrder(Ipv6Checks(v), Ipv6Rank);
  }

  /** The sections appear in the order speed, IPv6, DNS, DNS cache, location,
      each only when its key is present. */
  lemma SectionOrder(r: Results)
    ensures forall i, j :: 0 <= i < j < |Findings(r)| ==> SectionOf(Findings(r)[i]) <= SectionOf(Findings(r)[j])
    ensures forall i :: 0 <= i < |Findings(r)| ==> HasSection(r, SectionOf(Findings(r)[i]))
  {
    var fs := Findings(r);
    SectionsKeyed(r);
    KeyedOrdered(Sections(r));
    forall i | 0 <= i < |fs|
      ensures HasSection(r, SectionOf(fs[i]))
    {
      InReport(r, fs[i]);
      SectionPresent(r, SectionOf(fs[i]), fs[i]);
    }
  }

  /** The best-DNS line appears exactly when the DNS section names that best
      server. */
  lemma BestDnsShown(r: Results, b: BestDns)
    ensures BestDnsLine(b) in Findings(r) <==> r.dns.Some? && r.dns.value.best == Some(b)
  {
    InReport(r, BestDnsLine(b));
    assert Sections(r)[3] == DnsSection(r);
    if r.dns.Some? {
      DnsMembers(r.dns.value);
    }
  }

  /** Which findings a DNS section holds, each decided by its own entry. */
  lemma DnsMembers(d: DnsSummary)
    ensures forall b :: BestDnsLine(b) in DnsFindings(d) <==> d.best == Some(b)
    ensures HijackSuspected in DnsFindings(d) <==> d.hijacking
    ensures DohEnabled in DnsFindings(d) <==> d.dohEnabled
  {
  }

  /** The hijacking warning appears exactly when the DNS section flags
      hijacking, whatever the other DNS entries say. */
  lemma HijackShown(r: Results)
    ensures HijackSuspected in Findings(r) <==> r.dns.Some? && r.dns.value.hijacking
  {
    InReport(r, HijackSuspected);
    assert Sections(r)[3] == DnsSection(r);
    if r.dns.Some? {
      DnsMembers(r.dns.value);
    }
  }

  /** The DoH line appears exactly when the DNS section flags DoH as enabled,
      whatever the other DNS entries say. */
  lemma DohShown(r: Results)
    ensures DohEnabled in Findings(r) <==> r.dns.Some? && r.dns.value.dohEnabled
  {
    InReport(r, DohEnabled);
    assert Sections(r)[3] == DnsSection(r);
    if r.dns.Some? {
      DnsMembers(r.dns.value);
    }
  }

  /** The cache line appears exactly when the cache section has a non-zero
      TTL, and it shows that TTL. */
  lemma CacheLine(r: Results, ttl: int)
    ensures CacheActive(ttl) in Findings(r) <==> r.dnsCache.Some? && r.dnsCache.value.ttl == Some(ttl) && ttl != 0
  {
    InReport(r, CacheActive(ttl));
    assert Sections(r)[4] == CacheSection(r);
  }

  /** The location line appears exactly when the key is present, and shows its
      value. */
  lemma LocationShown(r: Results, loc: string)
    ensures LocationLine(loc) in Findings(r) <==> r.location == Some(loc)
  {
    InReport(r, LocationLine(loc));
    assert Sections(r)[5] == LocationSection(r);
  }

  /** A download of 5, an upload of 1 and a latency of 400 ms give the header,
      the critical download line, the low upload line, the high latency line
      and the footer, in that order. */
  lemma SlowLinkScenario()
    ensures Findings(Results(Some(Speed(Some(5), Some(1), Some(400))), None, None, None, None)) ==
      [Header, DownloadCritical, UploadVeryLow, HighLatency(400), Footer]
  {
    var s := Speed(Some(5), Some(1), Some(400));
    var r := Results(Some(s), None, None, None, None);
    assert SpeedFindings(s) == [DownloadCritical, UploadVeryLow, HighLatency(400)];
    FindingsFlat(r);
  }
}
