/** `check_ipv6_support` and its `check_ipv6` wrapper: a fixed sequence of
    IPv6 probes whose outcomes are inputs here, and the log lines and result
    fields the probes assemble from them. */
module Ipv6Checker {

  import opened Base
  import opened Strings
  import opened Seqs

  // ------------------------------------------------------------------
  // The environment

  /** What the network does for one test host: the `getaddrinfo` answer
      (`None` when it raises; otherwise the address of each entry) and the
      outcome of connecting to an address (`None` on success, otherwise the
      text of the exception). */
  datatype HostProbe = HostProbe(lookup: Option<seq<string>>, connect: string -> Option<string>)

  /** Everything `check_ipv6_support` reads from the system, in the order it
      reads it. A tool that `shutil.which` does not find is `None`. */
  datatype Env = Env(
    hosts: string -> HostProbe,
    localAddresses: Option<seq<string>>,
    nslookup: CmdResult,
    ipAddr: CmdResult,
    ping: CmdResult,
    dig: CmdResult,
    isWindows: bool,
    qualityPing: (seq<string>, nat) -> CmdResult,
    traceroute: Option<CmdResult>,
    ip6tables: Option<CmdResult>,
    ipAddrShow: CmdResult,
    radvdump: Option<CmdResult>,
    loopback: int -> Option<int>,
    ipsec: Option<CmdResult>,
    formatMs: string -> string,
    formatMean: seq<string> -> string)

  /** The dictionary `check_ipv6_support` returns. */
  datatype Report = Report(logs: seq<string>, chartPath: Option<string>, traceroute: string, firewall: string)

  // ------------------------------------------------------------------
  // Connectivity

  const Header := "🔍 Checking IPv6 support..."
  const ActiveLine := "🟢 IPv6 Connectivity: Active ✅"
  const InactiveLine := "🔴 IPv6 Connectivity: Inactive ❌"
  const NotSupportedLine := "❌ IPv6 is not supported."

  /** The hosts tried in turn, each with the bracketed literal used when its
      name does not resolve. */
  const TestHosts: seq<(string, string)> := [
    ("ipv6.google.com", "[" + GoogleFallback + "]"),
    ("one.one.one.one", "[" + CloudflareFallback + "]")
  ]

  const GoogleFallback := "2607:f8b0:4005:805::200e"
  const CloudflareFallback := "2606:4700:4700::1111"

  /** The address used for a host: the first `getaddrinfo` entry, or the
      fallback literal without its brackets when the lookup fails or is
      empty. */
  function Address(p: HostProbe, fallback: string): string {
    match p.lookup
    case Some(addrs) => if addrs != [] then addrs[0] else StripAny(fallback, {'[', ']'})
    case None => StripAny(fallback, {'[', ']'})
  }

  function AddressOf(env: Env, host: (string, string)): string {
    Address(env.hosts(host.0), host.1)
  }

  /** A host's address is the first entry its lookup returns; when the lookup
      fails or returns nothing, it is the host's fallback literal without the
      brackets. */
  lemma AddressChoice(env: Env, k: nat)
    requires k < |TestHosts|
    ensures var p := env.hosts(TestHosts[k].0);
      && (p.lookup.Some? && p.lookup.value != [] ==> AddressOf(env, TestHosts[k]) == p.lookup.value[0])
      && (p.lookup.None? || p.lookup.value == [] ==>
            AddressOf(env, TestHosts[k]) == if k == 0 then GoogleFallback else CloudflareFallback)
  {
    var bare := if k == 0 then GoogleFallback else CloudflareFallback;
    assert bare[0] == '2' && bare[|bare| - 1] in {'e', '1'};
    AddressFallback(env.hosts(TestHosts[k].0), bare);
  }

  /** The address for a bracketed fallback literal. */
  lemma AddressFallback(p: HostProbe, bare: string)
    requires bare == [] || (bare[0] !in {'[', ']'} && bare[|bare| - 1] !in {'[', ']'})
    ensures p.lookup.Some? && p.lookup.value != [] ==> Address(p, "[" + bare + "]") == p.lookup.value[0]
    ensures p.lookup.None? || p.lookup.value == [] ==> Address(p, "[" + bare + "]") == bare
  {
    StripAnyEnclosed('[', bare, ']', {'[', ']'});
  }

  predicate Connects(env: Env, host: (string, string)) {
    env.hosts(host.0).connect(AddressOf(env, host)).None?
  }

  function FailureLine(env: Env, host: (string, string)): string {
    var outcome := env.hosts(host.0).connect(AddressOf(env, host));
    "✖ Failed to connect to " + host.0 + " via IPv6: " + (if outcome.Some? then outcome.value else "")
  }

  function SuccessLine(env: Env, host: (string, string)): string {
    "✔ Successful connection to " + host.0 + " via IPv6 (" + AddressOf(env, host) + ")"
  }

  /** The index of the first host that connects, or the number of hosts. */
  function Winner(env: Env): (k: nat)
    ensures k <= |TestHosts|
  {
    FirstIndex(TestHosts, h => Connects(env, h))
  }

  predicate Supported(env: Env) {
    Winner(env) < |TestHosts|
  }

  /** One failure line per host tried before the first that connects. */
  function FailureLines(env: Env): seq<string> {
    FailuresUpTo(env, Winner(env))
  }

  /** The failure lines of the first `k` hosts. */
  function FailuresUpTo(env: Env, k: nat): seq<string>
    requires k <= |TestHosts|
  {
    Map(TestHosts[..k], FailureOf(env))
  }

  /** The failure line of each host under `env`, as a function value. */
  function FailureOf(env: Env): ((string, string)) -> string {
    h => FailureLine(env, h)
  }

  lemma FailuresUpToSnoc(env: Env, k: nat)
    requires k < |TestHosts|
    ensures FailuresUpTo(env, k + 1) == FailuresUpTo(env, k) + [FailureLine(env, TestHosts[k])]
  {
    assert TestHosts[..k + 1] == TestHosts[..k] + [TestHosts[k]];
    MapSnoc(TestHosts[..k], TestHosts[k], FailureOf(env));
  }

  // ------------------------------------------------------------------
  // The probes that follow a successful connection

  function LocalAddressLines(env: Env): seq<string> {
    ["\n📥 Local IPv6 Addresses:"]
    + match env.localAddresses
      case Some(addrs) => Map(addrs, a => "→ " + a)
      case None => ["⚠ Failed to retrieve local IPv6 addresses."]
  }

  function DnsLeakLines(env: Env): seq<string> {
    ["\n🔎 Checking DNS Leak over IPv6:"]
    + match env.nslookup
      case Ran(out) =>
        [if Contains(out, "Address") then "✔ DNS query completed successfully." else "⚠ DNS response issue detected."]
      case Raised(e) => ["⚠ nslookup error: " + e]
  }

  /** How `ip -6 addr` describes an address line. */
  datatype AddressKind = Dynamic | Static

  /** "scope global dynamic" is Dynamic, any other "scope global" is Static,
      and every other line is skipped. */
  function KindOf(line: string): Option<AddressKind> {
    if Contains(line, "scope global dynamic") then Some(Dynamic)
    else if Contains(line, "scope global") then Some(Static)
    else None
  }

  function KindLabel(k: AddressKind): string {
    match k
    case Dynamic => " (Dynamic)"
    case Static => " (Static)"
  }

  /** The line emitted for one line of `ip -6 addr`, if any. */
  function AddressLine(line: string): seq<string> {
    match KindOf(line)
    case Some(k) => ["→ " + Strip(line) + KindLabel(k)]
    case None => []
  }

  function AddressTypeLines(env: Env): seq<string> {
    ["\n📊 Detecting Static vs Dynamic Addresses:"]
    + match env.ipAddr
      case Ran(out) => FlatMap(SplitLines(out), AddressLine)
      case Raised(_) => ["⚠ Unable to detect address types."]
  }

  function PingLines(env: Env): seq<string> {
    ["\n📡 Sending ICMPv6 Pings:"]
    + match env.ping
      case Ran(out) => [Strip(out)]
      case Raised(e) => ["⚠ ICMPv6 error: " + e]
  }

  function Nat64Lines(env: Env): seq<string> {
    ["\n🚧 NAT64 Detection:"]
    + match env.dig
      case Ran(out) =>
        [if Contains(out, "AAAA") then "✔ AAAA record for ipv4only.arpa found; NAT64 is active."
         else "⚠ No AAAA record; NAT64 might be inactive or unavailable."]
      case Raised(e) => ["⚠ NAT64 detection error: " + e]
  }

  // ------------------------------------------------------------------
  // The ping quality test

  /** The number of leading ASCII digits of `s`. */
  function DigitRun(s: string): (n: nat)
    ensures n <= |s|
    ensures forall k :: 0 <= k < n ==> IsDigit(s[k])
    ensures n < |s| ==> !IsDigit(s[n])
    decreases |s|
  {
    if s != [] && IsDigit(s[0]) then 1 + DigitRun(s[1..]) else 0
  }

  /** Group 1 of `time[=<]\s*(\d+(\.\d+)?)` matched at the start of `s`.
      Each repetition in the pattern is followed by something it cannot
      match, so the greedy match is the only one. */
  function TimeMatchAt(s: string): Option<string> {
    if |s| >= 5 && s[..4] == "time" && (s[4] == '=' || s[4] == '<') then
      var rest := StripLeft(s[5..]);
      if DigitRun(rest) == 0 then None else Some(Captured(rest))
    else None
  }

  /** `re.search(r"time[=<]\s*(\d+(\.\d+)?)", s).group(1)`: the leftmost
      match. */
  function SearchTime(s: string): Option<string>
    decreases |s|
  {
    if s == [] then None
    else if TimeMatchAt(s).Some? then TimeMatchAt(s)
    else SearchTime(s[1..])
  }

  /** A number as the pattern's group captures it: digits, optionally a point
      and more digits. */
  predicate IsDecimalText(t: string) {
    var d := DigitRun(t);
    d > 0 && (d == |t| || (t[d] == '.' && d + 1 < |t| && DigitRun(t[d + 1..]) == |t| - d - 1))
  }

  /** The markers that make the source look for a reply time. */
  predicate HasTimeMarker(out: string) {
    Contains(out, "time=") || Contains(out, "زمان=")
  }

  /** The reply time one ping attempt contributes, if any. */
  function SampleOf(out: string): seq<string> {
    if HasTimeMarker(out) && SearchTime(out).Some? then [SearchTime(out).value] else []
  }

  /** The line one ping attempt logs, if any. */
  function AttemptLine(env: Env, out: string): seq<string> {
    if HasTimeMarker(out) then
      match SearchTime(out)
      case Some(t) => ["✅ Reply received: " + env.formatMs(t) + " ms"]
      case None => []
    else ["❌ No reply received."]
  }

  const QualityAttempts := 5

  /** The `ping` command of the quality test. */
  function QualityCommand(isWindows: bool): seq<string> {
    if isWindows then ["ping", "-n", "1", "ipv6.google.com"] else ["ping", "-6", "-c", "1", "ipv6.google.com"]
  }

  /** The outcome of each of the five attempts. */
  function Attempts(env: Env): (a: seq<CmdResult>)
    ensures |a| == QualityAttempts
  {
    seq(QualityAttempts, i requires 0 <= i < QualityAttempts => env.qualityPing(QualityCommand(env.isWindows), i))
  }

  /** The attempt whose `subprocess.run` raised first, which ends the test, or
      the number of attempts. */
  function Aborted(env: Env): (k: nat)
    ensures k <= QualityAttempts
  {
    FirstIndex(Attempts(env), (a: CmdResult) => a.Raised?)
  }

  /** The standard output of an attempt that ran. */
  function OutputOf(a: CmdResult): string {
    if a.Ran? then a.stdout else ""
  }

  function Outputs(env: Env): seq<string> {
    Map(Attempts(env)[..Aborted(env)], OutputOf)
  }

  /** The lines logged for a sequence of ping outputs. */
  function AttemptLines(env: Env, outs: seq<string>): seq<string> {
    FlatMap(outs, out => AttemptLine(env, out))
  }

  lemma AttemptLinesSnoc(env: Env, outs: seq<string>, out: string)
    ensures AttemptLines(env, outs + [out]) == AttemptLines(env, outs) + AttemptLine(env, out)
  {
    FlatMapSnoc(outs, out, o => AttemptLine(env, o));
  }

  /** The reply times collected, in attempt order. */
  function Samples(env: Env): seq<string> {
    FlatMap(Outputs(env), SampleOf)
  }

  const ChartPath := "/mnt/data/ipv6_latency_chart.png"

  function QualityLines(env: Env): seq<string> {
    var k := Aborted(env);
    ["\n📶 IPv6 Connection Quality (Ping Test)..."]
    + AttemptLines(env, Outputs(env))
    + (if k < QualityAttempts then ["⚠ Ping error: " + Attempts(env)[k].error]
       else if Samples(env) != [] then ["📊 Average Latency: " + env.formatMean(Samples(env)) + " ms"]
       else [])
  }

  /** The chart is saved when all five attempts ran and one of them gave a
      reply time. */
  function Chart(env: Env): Option<string> {
    if Aborted(env) == QualityAttempts && Samples(env) != [] then Some(ChartPath) else None
  }

  // ------------------------------------------------------------------
  // Traceroute, firewall, address security, router advertisements

  const NoTracerouteLine := "⚠ 'traceroute' is not installed on this system."
  const NoIp6tablesLine := "⚠ ip6tables is not available on this system."
  const NoRadvdumpLine := "⚠ radvdump is not installed."
  const NoIpsecLine := "ℹ IPsec tool is not installed."
  const IpsecActiveLine := "✔ IPsec connection is active."
  const IpsecIdleLine := "ℹ IPsec is installed but no active connection found."

  function TracerouteOutput(env: Env): string {
    match env.traceroute
    case None => NoTracerouteLine
    case Some(Ran(out)) => Strip(out)
    case Some(Raised(e)) => "⚠ Traceroute error: " + e
  }

  function FirewallOutput(env: Env): string {
    match env.ip6tables
    case None => NoIp6tablesLine
    case Some(Ran(out)) => Strip(out)
    case Some(Raised(e)) => "⚠ ip6tables error: " + e
  }

  predicate IsHexOrColon(c: char) {
    ('0' <= c <= '9') || ('a' <= c <= 'f') || c == ':'
  }

  /** The length of the leading run of `[0-9a-f:]` characters. */
  function HexRun(s: string): (n: nat)
    ensures n <= |s|
    ensures forall k :: 0 <= k < n ==> IsHexOrColon(s[k])
    ensures n < |s| ==> !IsHexOrColon(s[n])
    decreases |s|
  {
    if s != [] && IsHexOrColon(s[0]) then 1 + HexRun(s[1..]) else 0
  }

  /** The length of the leading run of whitespace. */
  function SpaceRun(s: string): (n: nat)
    ensures n <= |s|
    ensures forall k :: 0 <= k < n ==> IsSpace(s[k])
    ensures n < |s| ==> !IsSpace(s[n])
    decreases |s|
  {
    if s != [] && IsSpace(s[0]) then 1 + SpaceRun(s[1..]) else 0
  }

  /** The length of a match of `inet6 ([0-9a-f:]+)/(?:\d+)\s+scope <scope>`
      at the start of `s`. Each repetition is followed by a character it
      cannot match, so the match is unique. */
  function Inet6MatchAt(s: string, scope: string): (m: Option<nat>)
    ensures m.Some? ==> 0 < m.value <= |s|
  {
    var lead := "inet6 ";
    if !IsPrefix(lead, s) then None
    else
      var a := s[|lead|..];
      var h := HexRun(a);
      if h == 0 || h == |a| || a[h] != '/' then None
      else
        var b := a[h + 1..];
        var d := DigitRun(b);
        if d == 0 then None
        else
          var c := b[d..];
          var w := SpaceRun(c);
          if w == 0 || !IsPrefix("scope " + scope, c[w..]) then None
          else Some(|lead| + h + 1 + d + w + |"scope " + scope|)
  }

  /** `len(re.findall(pattern, s))`: matches are counted left to right, the
      search resuming after each match. */
  function CountInet6(s: string, scope: string): nat
    decreases |s|
  {
    if s == [] then 0
    else match Inet6MatchAt(s, scope)
      case Some(n) => 1 + CountInet6(s[n..], scope)
      case None => CountInet6(s[1..], scope)
  }

  const TemporaryOn := "⚠ Temporary address (privacy extension) is enabled."
  const TemporaryOff := "✅ Temporary address is disabled."
  const SlaacOn := "⚠ SLAAC (Stateless Address Autoconfiguration) is enabled."
  const SlaacOff := "✅ SLAAC is disabled."

  function SecurityCheckLines(env: Env): seq<string> {
    ["\n🔐 IPv6 Security Check:"]
    + match env.ipAddrShow
      case Ran(out) =>
        [ "🌐 Number of public addresses: " + IntToString(CountInet6(out, "global")),
          "🔗 Number of link-local addresses: " + IntToString(CountInet6(out, "link")),
          if Contains(out, "temporary") then TemporaryOn else TemporaryOff,
          if Contains(out, "autoconf") then SlaacOn else SlaacOff ]
      case Raised(e) => ["⚠ Address inspection error: " + e]
  }

  function RadvdumpLines(env: Env): seq<string> {
    match env.radvdump
    case None => [NoRadvdumpLine]
    case Some(Ran(out)) =>
      ["🔎 Checking RA via radvdump...",
       if Strip(out) != "" then "⚠ Router Advertisements (RA) detected. Security review recommended."
       else "✅ No suspicious RA found."]
    case Some(Raised(e)) => ["🔎 Checking RA via radvdump...", "⚠ radvdump error: " + e]
  }

  // ------------------------------------------------------------------
  // The loopback sweep and IPsec

  const LoopbackPorts: seq<int> := [22, 80, 443, 8080, 8443]

  /** `connect_ex(("::1", port)) == 0`; a raised exception skips the port. */
  predicate LoopbackOpen(env: Env, port: int) {
    env.loopback(port) == Some(0)
  }

  function LoopbackOpenPorts(env: Env): seq<int> {
    OpenAmong(env, LoopbackPorts)
  }

  /** The ports of `ports` that accept a connection, in order. */
  function OpenAmong(env: Env, ports: seq<int>): seq<int> {
    Filter(ports, p => LoopbackOpen(env, p))
  }

  lemma OpenAmongSnoc(env: Env, ports: seq<int>, port: int)
    ensures OpenAmong(env, ports + [port]) == OpenAmong(env, ports) + (if LoopbackOpen(env, port) then [port] else [])
  {
    FilterAppend(ports, [port], p => LoopbackOpen(env, p));
  }

  function LoopbackSummary(open: seq<int>): string {
    if open != [] then "⚠ Open ports detected on ::1: " + IntListRepr(open)
    else "✅ No suspicious ports found on ::1."
  }

  function LoopbackLines(env: Env): seq<string> {
    ["🧪 Scanning open ports on IPv6 localhost (::1):", LoopbackSummary(LoopbackOpenPorts(env))]
  }

  function IpsecLines(env: Env): seq<string> {
    ["🔐 Checking IPsec Configuration:"]
    + match env.ipsec
      case None => [NoIpsecLine]
      case Some(Ran(out)) =>
        [if Contains(out, "INSTALLED") || Contains(out, "ESTABLISHED") then IpsecActiveLine
         else IpsecIdleLine]
      case Some(Raised(e)) => ["⚠ IPsec status error: " + e]
  }

  // ------------------------------------------------------------------
  // The whole probe

  /** The log of `check_ipv6_support`: the header, the connectivity status
      line inserted right after it, one line per failed host, and then either
      the verdict that IPv6 is unsupported or the success line and the
      remaining probes. */
  function Logs(env: Env): seq<string> {
    Opening(env) + (if Supported(env) then Probes(env) else [NotSupportedLine])
  }

  /** The lines up to the connectivity verdict. */
  function Opening(env: Env): seq<string> {
    [Header, StatusLine(env)] + FailureLines(env) + SuccessLines(env)
  }

  /** The status line inserted after the header. */
  function StatusLine(env: Env): string {
    if Supported(env) then ActiveLine else InactiveLine
  }

  /** The success line of the host that connected, if one did. */
  function SuccessLines(env: Env): seq<string> {
    if Supported(env) then [SuccessLine(env, TestHosts[Winner(env)])] else []
  }

  /** The lines of the probes that run once a host has connected. */
  function Probes(env: Env): seq<string> {
    LocalAddressLines(env) + DnsLeakLines(env) + AddressTypeLines(env)
    + PingLines(env) + Nat64Lines(env) + QualityLines(env)
    + ["\n🔉 Running IPv6 Traceroute:"] + ["\n🛡 IPv6 Firewall Status:"]
    + SecurityCheckLines(env) + RadvdumpLines(env) + LoopbackLines(env) + IpsecLines(env)
  }

  /** The result's chart path, route and firewall status: only a supported
      probe gets as far as producing them. */
  function SavedChart(env: Env): Option<string> {
    if Supported(env) then Chart(env) else None
  }

  function Route(env: Env): string {
    if Supported(env) then TracerouteOutput(env) else ""
  }

  function FirewallStatus(env: Env): string {
    if Supported(env) then FirewallOutput(env) else ""
  }

  /** The result of `check_ipv6_support`. */
  function Support(env: Env): Report {
    Report(Logs(env), SavedChart(env), Route(env), FirewallStatus(env))
  }


  /** The lines `check_ipv6` logs for a result. */
  function WrapperLines(r: Report): seq<string> {
    r.logs
    + (if r.chartPath.Some? && r.chartPath.value != "" then ["📊 Latency chart saved: " + r.chartPath.value] else [])
    + (if r.traceroute != "" then ["\n🌐 IPv6 Traffic Route:", r.traceroute] else [])
    + (if r.firewall != "" then ["\n🔥 Initial IPv6 Firewall Status:", r.firewall] else [])
  }

  // ------------------------------------------------------------------
  // The imperative probe

  /** The connectivity loop: try each host in turn, stop at the first that
      connects, and insert the status line at index 1 when one does. The
      result says whether one did and, if so, which. */
  method ConnectivityLoop(env: Env) returns (logs: seq<string>, supported: bool, winner: nat)
    ensures supported == Supported(env) && winner == Winner(env)
    ensures !supported ==> logs == [Header] + FailureLines(env)
    ensures supported ==> logs == [Header, ActiveLine] + FailureLines(env) + [SuccessLine(env, TestHosts[winner])]
  {
    logs := [Header];
    supported := false;
    var i := 0;
    while i < |TestHosts| && !supported
      invariant 0 <= i <= |TestHosts|
      invariant forall j :: 0 <= j < i ==> !Connects(env, TestHosts[j])
      invariant !supported ==> logs == [Header] + FailuresUpTo(env, i)
      invariant supported ==> i < |TestHosts| && Connects(env, TestHosts[i])
      invariant supported ==>
                  logs == [Header, ActiveLine] + FailuresUpTo(env, i) + [SuccessLine(env, TestHosts[i])]
      decreases |TestHosts| - i, if supported then 0 else 1
    {
      var hostname, fallback := TestHosts[i].0, TestHosts[i].1;
      var probe := env.hosts(hostname);
      var address := Address(probe, fallback);
      var outcome := probe.connect(address);
      if outcome.None? {
        InsertAfterHead(Header, FailuresUpTo(env, i), ActiveLine);
        logs := Insert(logs, 1, ActiveLine);
        logs := logs + ["✔ Successful connection to " + hostname + " via IPv6 (" + address + ")"];
        supported := true;
      } else {
        FailuresUpToSnoc(env, i);
        logs := logs + ["✖ Failed to connect to " + hostname + " via IPv6: " + outcome.value];
        i := i + 1;
      }
    }
    winner := i;
  }

  /** The local addresses, one line each. */
  method LocalAddresses(env: Env) returns (lines: seq<string>)
    ensures lines == LocalAddressLines(env)
  {
    var body := [];
    match env.localAddresses {
      case None =>
        body := ["⚠ Failed to retrieve local IPv6 addresses."];
      case Some(addrs) =>
        for i := 0 to |addrs|
          invariant body == Map(addrs[..i], a => "→ " + a)
        {
          MapSnoc(addrs[..i], addrs[i], a => "→ " + a);
          assert addrs[..i + 1] == addrs[..i] + [addrs[i]];
          body := body + ["→ " + addrs[i]];
        }
        assert addrs[..|addrs|] == addrs;
    }
    lines := ["\n📥 Local IPv6 Addresses:"] + body;
  }

  /** The line logged for one line of `ip -6 addr`, if any. */
  method ClassifyLine(line: string) returns (emitted: seq<string>)
    ensures emitted == AddressLine(line)
  {
    emitted := [];
    if Contains(line, "scope global dynamic") {
      emitted := ["→ " + Strip(line) + " (Dynamic)"];
    } else if Contains(line, "scope global") {
      emitted := ["→ " + Strip(line) + " (Static)"];
    }
  }

  /** The classification loop over the lines of `ip -6 addr`. */
  method ClassifyLines(outLines: seq<string>) returns (body: seq<string>)
    ensures body == FlatMap(outLines, AddressLine)
  {
    body := [];
    for i := 0 to |outLines|
      invariant body == FlatMap(outLines[..i], AddressLine)
    {
      FlatMapPrefixStep(outLines, i, AddressLine);
      var emitted := ClassifyLine(outLines[i]);
      body := body + emitted;
    }
    assert outLines[..|outLines|] == outLines;
  }

  /** The address-type classification of each line of `ip -6 addr`. */
  method AddressTypes(env: Env) returns (lines: seq<string>)
    ensures lines == AddressTypeLines(env)
  {
    var body := [];
    match env.ipAddr {
      case Raised(_) =>
        body := ["⚠ Unable to detect address types."];
      case Ran(out) =>
        body := ClassifyLines(SplitLines(out));
    }
    lines := ["\n📊 Detecting Static vs Dynamic Addresses:"] + body;
  }

  /** One attempt's output: the line it logs and the reply time it adds. */
  method ReadReply(env: Env, output: string) returns (line: seq<string>, sample: seq<string>)
    ensures line == AttemptLine(env, output) && sample == SampleOf(output)
  {
    line, sample := [], [];
    if Contains(output, "time=") || Contains(output, "زمان=") {
      var found := SearchTime(output);
      if found.Some? {
        sample := [found.value];
        line := ["✅ Reply received: " + env.formatMs(found.value) + " ms"];
      }
    } else {
      line := ["❌ No reply received."];
    }
  }

  /** The five-attempt ping test. An attempt whose `subprocess.run` raises
      ends the test with one error line. */
  method QualityTest(env: Env) returns (lines: seq<string>, samples: seq<string>, chartPath: Option<string>)
    ensures lines == QualityLines(env) && samples == Samples(env) && chartPath == Chart(env)
  {
    var body, stopped;
    body, samples, stopped := PingAttempts(env);
    chartPath := None;
    lines := ["\n📶 IPv6 Connection Quality (Ping Test)..."] + body;
    if stopped < QualityAttempts {
      lines := lines + ["⚠ Ping error: " + Attempts(env)[stopped].error];
    } else if samples != [] {
      lines := lines + ["📊 Average Latency: " + env.formatMean(samples) + " ms"];
      chartPath := Some(ChartPath);
    }
  }

  /** What the ping loop has logged once the first `i` attempts ran. */
  ghost predicate PingState(env: Env, i: nat, outs: seq<string>, body: seq<string>, samples: seq<string>) {
    && i <= QualityAttempts
    && (forall j :: 0 <= j < i ==> !Attempts(env)[j].Raised?)
    && outs == Map(Attempts(env)[..i], OutputOf)
    && body == AttemptLines(env, outs)
    && samples == FlatMap(outs, SampleOf)
  }

  /** One ping attempt: stop if it raised, otherwise log its reply. */
  method PingStep(env: Env, i: nat, ghost outs: seq<string>, body: seq<string>, samples: seq<string>)
    returns (failed: bool, ghost outs': seq<string>, body': seq<string>, samples': seq<string>)
    requires i < QualityAttempts && PingState(env, i, outs, body, samples)
    ensures failed ==> Attempts(env)[i].Raised?
    ensures !failed ==> PingState(env, i + 1, outs', body', samples')
  {
    var res := env.qualityPing(QualityCommand(env.isWindows), i);
    assert res == Attempts(env)[i];
    failed, outs', body', samples' := res.Raised?, outs, body, samples;
    if !failed {
      var output := res.stdout;
      var attempts := Attempts(env);
      MapSnoc(attempts[..i], attempts[i], OutputOf);
      assert attempts[..i + 1] == attempts[..i] + [attempts[i]];
      AttemptLinesSnoc(env, outs, output);
      FlatMapSnoc(outs, output, SampleOf);
      var line, sample := ReadReply(env, output);
      body' := body + line;
      samples' := samples + sample;
      outs' := outs + [output];
    }
  }

  /** The attempts loop of the ping test: the lines and reply times logged,
      and the attempt that raised, or five when none did. */
  method PingAttempts(env: Env) returns (body: seq<string>, samples: seq<string>, stopped: nat)
    ensures stopped == Aborted(env)
    ensures body == AttemptLines(env, Outputs(env)) && samples == Samples(env)
  {
    body := [];
    ghost var outs: seq<string> := [];
    samples := [];
    var i := 0;
    var failed := false;
    while i < QualityAttempts && !failed
      invariant PingState(env, i, outs, body, samples)
      invariant failed ==> i < QualityAttempts && Attempts(env)[i].Raised?
      decreases QualityAttempts - i, if failed then 0 else 1
    {
      var f, o, b, s := PingStep(env, i, outs, body, samples);
      failed := f;
      if !failed {
        outs, body, samples := o, b, s;
        i := i + 1;
      }
    }
    stopped := i;
  }


  /** The loopback sweep: the ports that accept a connection, in list order,
      and the one summary line. */
  method LoopbackSweep(env: Env) returns (lines: seq<string>, openPorts: seq<int>)
    ensures openPorts == LoopbackOpenPorts(env) && lines == LoopbackLines(env)
  {
    var ports := LoopbackPorts;
    openPorts := [];
    for i := 0 to |ports|
      invariant openPorts == OpenAmong(env, ports[..i])
    {
      OpenAmongSnoc(env, ports[..i], ports[i]);
      assert ports[..i + 1] == ports[..i] + [ports[i]];
      if env.loopback(ports[i]) == Some(0) {
        openPorts := openPorts + [ports[i]];
      }
    }
    assert ports[..|ports|] == ports;
    var summary;
    if openPorts != [] {
      summary := "⚠ Open ports detected on ::1: " + IntListRepr(openPorts);
    } else {
      summary := "✅ No suspicious ports found on ::1.";
    }
    lines := ["🧪 Scanning open ports on IPv6 localhost (::1):", summary];
  }

  /** `check_ipv6_support()`. */
  method CheckIpv6Support(env: Env) returns (r: Report)
    ensures r == Support(env)
  {
    var logs, supported, winner := ConnectivityLoop(env);
    if !supported {
      InsertAfterHead(Header, FailureLines(env), InactiveLine);
      logs := Insert(logs, 1, InactiveLine);
      logs := logs + [NotSupportedLine];
      return Report(logs, None, "", "");
    }
    var rest, chartPath, traceroute, firewall := RunProbes(env);
    logs := logs + rest;
    r := Report(logs, chartPath, traceroute, firewall);
  }

  /** The probes after a successful connection, in the order they log. */
  method RunProbes(env: Env) returns (logs: seq<string>, chartPath: Option<string>, traceroute: string, firewall: string)
    ensures logs == Probes(env) && chartPath == Chart(env)
    ensures traceroute == TracerouteOutput(env) && firewall == FirewallOutput(env)
  {
    logs := LocalAddresses(env);
    logs := logs + DnsLeakLines(env);
    var lines := AddressTypes(env);
    logs := logs + lines;
    logs := logs + PingLines(env);
    logs := logs + Nat64Lines(env);
    var samples;
    lines, samples, chartPath := QualityTest(env);
    logs := logs + lines;
    logs := logs + ["\n🔉 Running IPv6 Traceroute:"];
    traceroute := TracerouteOutput(env);
    logs := logs + ["\n🛡 IPv6 Firewall Status:"];
    firewall := FirewallOutput(env);
    logs := logs + SecurityCheckLines(env);
    logs := logs + RadvdumpLines(env);
    var openPorts;
    lines, openPorts := LoopbackSweep(env);
    logs := logs + lines;
    logs := logs + IpsecLines(env);
  }


  /** The lines `check_ipv6` logs for a probe result. */
  method LogReport(result: Report) returns (out: seq<string>)
    ensures out == WrapperLines(result)
  {
    out := [];
    for i := 0 to |result.logs|
      invariant out == result.logs[..i]
    {
      assert result.logs[..i + 1] == result.logs[..i] + [result.logs[i]];
      out := out + [result.logs[i]];
    }
    assert result.logs[..|result.logs|] == result.logs;
    if result.chartPath.Some? && result.chartPath.value != "" {
      out := out + ["📊 Latency chart saved: " + result.chartPath.value];
    }
    if result.traceroute != "" {
      out := out + ["\n🌐 IPv6 Traffic Route:", result.traceroute];
    }
    if result.firewall != "" {
      out := out + ["\n🔥 Initial IPv6 Firewall Status:", result.firewall];
    }
  }

  /** `check_ipv6(log)`: the probe's log, then the chart path, the route and
      the firewall status when each is non-empty. */
  method CheckIpv6(env: Env) returns (out: seq<string>)
    ensures out == WrapperLines(Support(env))
  {
    var result := CheckIpv6Support(env);
    out := LogReport(result);
  }

  // ------------------------------------------------------------------
  // Properties of the probe

  /** When no host connects, every host was tried and failed; the log is the
      header, the inactive status, one failure line per host and the verdict;
      no chart, route or firewall status is returned, so the wrapper logs the
      probe's lines and nothing more. */
  lemma NotSupportedResult(env: Env)
    requires !Supported(env)
    ensures forall j :: 0 <= j < |TestHosts| ==> !Connects(env, TestHosts[j])
    ensures Logs(env) == [Header, InactiveLine] + Map(TestHosts, FailureOf(env)) + [NotSupportedLine]
    ensures Support(env).chartPath == None && Support(env).traceroute == "" && Support(env).firewall == ""
    ensures WrapperLines(Support(env)) == Logs(env)
  {
    assert TestHosts[..Winner(env)] == TestHosts;
    var r := Support(env);
    assert WrapperLines(r) == r.logs + [] + [] + [];
  }

  /** The log starts with the connectivity lines. */
  lemma LogsStartWithOpening(env: Env)
    ensures Logs(env)[..|Opening(env)|] == Opening(env)
  {
    PrefixOfAppend(Opening(env), if Supported(env) then Probes(env) else [NotSupportedLine]);
  }

  lemma PrefixOfAppend<T>(a: seq<T>, b: seq<T>)
    ensures (a + b)[..|a|] == a
  {
  }

  /** The header comes first and the status line right after it. */
  lemma StatusAfterHeader(env: Env)
    ensures |Opening(env)| >= 2 && Opening(env)[0] == Header
    ensures Opening(env)[1] == (if Supported(env) then ActiveLine else InactiveLine)
  {
  }

  /** The status is active exactly when some host connects. */
  lemma SupportedIffConnects(env: Env)
    ensures Supported(env) <==> exists j :: 0 <= j < |TestHosts| && Connects(env, TestHosts[j])
  {
    if Supported(env) {
      assert Connects(env, TestHosts[Winner(env)]);
    }
  }

  /** The first host that connects ends the loop: every host before it
      failed and has its failure line, in order, after the status line. */
  lemma FailuresBeforeWinner(env: Env)
    ensures forall j :: 0 <= j < Winner(env) ==> !Connects(env, TestHosts[j])
    ensures |Opening(env)| >= 2 + Winner(env)
    ensures forall j :: 0 <= j < Winner(env) ==> Opening(env)[2 + j] == FailureLine(env, TestHosts[j])
  {
    var w := Winner(env);
    forall j | 0 <= j < w
      ensures Opening(env)[2 + j] == FailureLine(env, TestHosts[j])
    {
      MapMiddle([Header, StatusLine(env)], TestHosts[..w], FailureOf(env), SuccessLines(env), j);
      assert TestHosts[..w][j] == TestHosts[j];
    }
  }

  /** An element of a mapped sequence placed between two others. */
  lemma MapMiddle<T>(head: seq<string>, xs: seq<T>, f: T -> string, rest: seq<string>, j: nat)
    requires j < |xs|
    ensures (head + Map(xs, f) + rest)[|head| + j] == f(xs[j])
  {
  }

  /** The success line of the first host that connects follows the failure
      lines and ends the connectivity lines. */
  lemma SuccessAfterFailures(env: Env)
    requires Supported(env)
    ensures Connects(env, TestHosts[Winner(env)])
    ensures |Opening(env)| == 3 + Winner(env)
    ensures Opening(env)[2 + Winner(env)] == SuccessLine(env, TestHosts[Winner(env)])
  {
  }

  /** "scope global dynamic" marks a dynamic address, any other
      "scope global" a static one, and a line with neither is skipped. */
  lemma KindOfCases(line: string)
    ensures KindOf(line) == Some(Dynamic) <==> Contains(line, "scope global dynamic")
    ensures KindOf(line) == Some(Static) <==> Contains(line, "scope global") && !Contains(line, "scope global dynamic")
    ensures KindOf(line).None? <==> !Contains(line, "scope global")
  {
    if Contains(line, "scope global dynamic") {
      GlobalDynamicIsGlobal(line);
    }
  }

  /** Every line that mentions "scope global dynamic" mentions "scope global". */
  lemma {:induction false} GlobalDynamicIsGlobal(s: string)
    requires Contains(s, "scope global dynamic")
    ensures Contains(s, "scope global")
    decreases |s|
  {
    if IsPrefix("scope global dynamic", s) {
      assert s[..|"scope global"|] == "scope global";
    } else {
      GlobalDynamicIsGlobal(s[1..]);
    }
  }

  /** One classification line per line of `ip -6 addr` that mentions
      "scope global", after the section header. */
  lemma AddressTypeCount(env: Env)
    requires env.ipAddr.Ran?
    ensures |AddressTypeLines(env)| == 1 + |Filter(SplitLines(env.ipAddr.stdout), l => Contains(l, "scope global"))|
  {
    var lines := SplitLines(env.ipAddr.stdout);
    forall i | 0 <= i < |lines|
      ensures |AddressLine(lines[i])| == (if Contains(lines[i], "scope global") then 1 else 0)
    {
      KindOfCases(lines[i]);
    }
    FlatMapCountsFilter(lines, AddressLine, l => Contains(l, "scope global"));
  }

  /** The number of matched digits of `s[..k]`. */
  lemma {:induction false} DigitRunTake(s: string, k: nat)
    requires k <= |s|
    ensures DigitRun(s[..k]) == if k <= DigitRun(s) then k else DigitRun(s)
    decreases k
  {
    if k > 0 && IsDigit(s[0]) {
      DigitRunTake(s[1..], k - 1);
      assert s[..k][1..] == s[1..][..k - 1];
    }
  }

  /** A match at the start of `s` captures a decimal number that occurs in `s`. */
  lemma TimeMatchSound(s: string)
    requires TimeMatchAt(s).Some?
    ensures IsDecimalText(TimeMatchAt(s).value) && Contains(s, TimeMatchAt(s).value)
  {
    var rest := StripLeft(s[5..]);
    var t := TimeMatchAt(s).value;
    CapturedDecimal(rest);
    assert IsPrefix(t, rest);
    ContainsPrefix(t, rest);
    assert s == s[..|s| - |rest|] + rest;
    ContainsInSuffix(s[..|s| - |rest|], rest, t);
  }

  /** The digits, point and digits the pattern captures at the start of `rest`. */
  function Captured(rest: string): string
    requires DigitRun(rest) > 0
  {
    var d := DigitRun(rest);
    if d + 1 < |rest| && rest[d] == '.' && IsDigit(rest[d + 1]) then rest[..d + 1 + DigitRun(rest[d + 1..])]
    else rest[..d]
  }

  lemma CapturedDecimal(rest: string)
    requires DigitRun(rest) > 0
    ensures IsDecimalText(Captured(rest)) && IsPrefix(Captured(rest), rest)
  {
    var d := DigitRun(rest);
    if d + 1 < |rest| && rest[d] == '.' && IsDigit(rest[d + 1]) {
      CapturedFraction(rest);
    } else {
      CapturedWhole(rest);
    }
  }

  /** The capture when a point and a digit follow the leading digits. */
  lemma CapturedFraction(rest: string)
    requires 0 < DigitRun(rest) && DigitRun(rest) + 1 < |rest|
    requires rest[DigitRun(rest)] == '.' && IsDigit(rest[DigitRun(rest) + 1])
    ensures IsDecimalText(Captured(rest)) && IsPrefix(Captured(rest), rest)
  {
    var d := DigitRun(rest);
    var e := DigitRun(rest[d + 1..]);
    assert rest[d + 1..][0] == rest[d + 1];
    CapturedFractionForm(rest, d, e);
    FractionDecimal(rest, d, e);
    TakeIsPrefix(rest, d + 1 + e);
  }

  lemma CapturedFractionForm(rest: string, d: nat, e: nat)
    requires 0 < d == DigitRun(rest) && d + 1 < |rest|
    requires rest[d] == '.' && IsDigit(rest[d + 1])
    requires e == DigitRun(rest[d + 1..])
    ensures d + 1 + e <= |rest| && Captured(rest) == rest[..d + 1 + e]
  {
  }

  /** The capture when no fraction follows the leading digits. */
  lemma CapturedWhole(rest: string)
    requires 0 < DigitRun(rest)
    requires !(DigitRun(rest) + 1 < |rest| && rest[DigitRun(rest)] == '.' && IsDigit(rest[DigitRun(rest) + 1]))
    ensures IsDecimalText(Captured(rest)) && IsPrefix(Captured(rest), rest)
  {
    var d := DigitRun(rest);
    var c := Captured(rest);
    assert c == rest[..d];
    WholeDecimal(rest, d);
    TakeIsPrefix(rest, d);
  }

  lemma TakeIsPrefix(s: string, n: nat)
    requires n <= |s|
    ensures IsPrefix(s[..n], s)
  {
  }

  /** Leading digits alone make a decimal number. */
  lemma WholeDecimal(rest: string, d: nat)
    requires 0 < d == DigitRun(rest)
    ensures IsDecimalText(rest[..d])
  {
    DigitRunTake(rest, d);
    assert DigitRun(rest[..d]) == |rest[..d]|;
  }

  /** Digits, a point and more digits make a decimal number. */
  lemma FractionDecimal(rest: string, d: nat, e: nat)
    requires 0 < d == DigitRun(rest) && d + 1 < |rest| && rest[d] == '.'
    requires e == DigitRun(rest[d + 1..]) && e > 0
    ensures IsDecimalText(rest[..d + 1 + e])
  {
    FractionHead(rest, d, e);
    FractionTail(rest, d, e);
    assert rest[..d + 1 + e][d] == '.';
  }

  /** The integral digits of a decimal number taken from the front of `rest`. */
  lemma FractionHead(rest: string, d: nat, e: nat)
    requires d == DigitRun(rest) && d + 1 + e <= |rest|
    ensures DigitRun(rest[..d + 1 + e]) == d
  {
    DigitRunTake(rest, d + 1 + e);
  }

  /** The fractional digits of a decimal number taken from the front of `rest`. */
  lemma FractionTail(rest: string, d: nat, e: nat)
    requires d + 1 + e <= |rest| && e == DigitRun(rest[d + 1..])
    ensures DigitRun(rest[..d + 1 + e][d + 1..]) == e
  {
    var u := rest[d + 1..];
    assert rest[..d + 1 + e][d + 1..] == u[..e];
    DigitRunTake(u, e);
  }

  /** What `re.search` reads from an output is a decimal number that occurs
      in it. */
  lemma {:induction false} SearchTimeSound(s: string)
    requires SearchTime(s).Some?
    ensures IsDecimalText(SearchTime(s).value) && Contains(s, SearchTime(s).value)
    decreases |s|
  {
    if TimeMatchAt(s).Some? {
      TimeMatchSound(s);
    } else {
      SearchTimeSound(s[1..]);
      var t := SearchTime(s).value;
      assert s == [s[0]] + s[1..];
      ContainsInSuffix([s[0]], s[1..], t);
    }
  }

  /** A sub-millisecond Windows reply, "time<1ms", has no "time=" marker, so
      the attempt is logged as no reply and adds no sample, although the
      pattern itself would read "1" from it. */
  lemma SubMillisecondReply(env: Env)
    ensures SearchTime("time<1ms") == Some("1")
    ensures AttemptLine(env, "time<1ms") == ["❌ No reply received."]
    ensures SampleOf("time<1ms") == []
  {
    SubMillisecondMatch();
    NoTimeMarker();
  }

  lemma SubMillisecondMatch()
    ensures SearchTime("time<1ms") == Some("1")
  {
    TimeMatchOfSubMillisecond();
    assert "time<1ms" != [];
  }

  lemma TimeMatchOfSubMillisecond()
    ensures TimeMatchAt("time<1ms") == Some("1")
  {
    var s := "time<1ms";
    assert s[..4] == "time" && s[4] == '<';
    assert s[5..] == "1ms";
    StripTrimmedLeft("1ms");
    CapturedOne();
  }

  lemma CapturedOne()
    ensures DigitRun("1ms") == 1 && Captured("1ms") == "1"
  {
    var r := "1ms";
    assert r[1..] == "ms" && !IsDigit('m');
    assert DigitRun(r[1..]) == 0;
    assert r[1] == 'm';
    assert r[..1] == "1";
  }

  lemma StripTrimmedLeft(s: string)
    requires s != [] && !IsSpace(s[0])
    ensures StripLeft(s) == s
  {
  }

  lemma NoTimeMarker()
    ensures !HasTimeMarker("time<1ms")
  {
    var s := "time<1ms";
    assert forall k :: 0 <= k < |s| ==> s[k] != '=';
    MissingCharNotContained(s, "time=", 4);
    MissingCharNotContained(s, "زمان=", 4);
  }



  /** At most one reply time per attempt that ran. */
  lemma SamplesBound(env: Env)
    ensures |Samples(env)| <= Aborted(env) <= QualityAttempts
  {
    FlatMapAtMostOne(Outputs(env), SampleOf);
  }

  /** The chart is saved exactly when every attempt ran and at least one of
      them gave a reply time. */
  lemma ChartSaved(env: Env)
    ensures Chart(env).Some? <==>
              (forall j :: 0 <= j < QualityAttempts ==> Attempts(env)[j].Ran?)
              && (exists j :: 0 <= j < QualityAttempts && SampleOf(OutputOf(Attempts(env)[j])) != [])
    ensures Chart(env).Some? ==> Chart(env).value == ChartPath
  {
    var a := Attempts(env);
    FlatMapEmpty(Outputs(env), SampleOf);
    if forall j :: 0 <= j < QualityAttempts ==> a[j].Ran? {
      FirstIndexUnique(a, (x: CmdResult) => x.Raised?, QualityAttempts);
      assert a[..Aborted(env)] == a;
    }
  }

  /** When an attempt raises, the test ends there: its error is the last line
      of the section, no average is logged and no chart is saved. */
  lemma PingErrorEnds(env: Env)
    requires Aborted(env) < QualityAttempts
    ensures Attempts(env)[Aborted(env)].Raised?
    ensures forall j :: 0 <= j < Aborted(env) ==> Attempts(env)[j].Ran?
    ensures QualityLines(env)[|QualityLines(env)| - 1] == "⚠ Ping error: " + Attempts(env)[Aborted(env)].error
    ensures Chart(env) == None
  {
  }

  /** The ports reported open among ascending `ports` are exactly those that
      accept a connection, in ascending order. */
  lemma OpenAmongSpec(env: Env, ports: seq<int>)
    requires Ascending(ports)
    ensures forall p :: p in OpenAmong(env, ports) <==> p in ports && env.loopback(p) == Some(0)
    ensures Ascending(OpenAmong(env, ports))
  {
    forall p {
      FilterMembers(ports, q => LoopbackOpen(env, q), p);
    }
    FilterAscending(ports, q => LoopbackOpen(env, q));
  }

  /** The loopback sweep reports exactly the listed ports that accept a
      connection, in ascending order. */
  lemma LoopbackOpenPortsSpec(env: Env)
    ensures forall p :: p in LoopbackOpenPorts(env) <==> p in LoopbackPorts && env.loopback(p) == Some(0)
    ensures Ascending(LoopbackOpenPorts(env))
  {
    OpenAmongSpec(env, LoopbackPorts);
  }

  /** The route is returned, and so shown by the wrapper, unless IPv6 is not
      supported or `traceroute` ran and printed only whitespace. */
  lemma RouteShown(env: Env)
    ensures Route(env) == "" <==>
              !Supported(env) || (env.traceroute.Some? && env.traceroute.value.Ran? && Strip(env.traceroute.value.stdout) == "")
  {
    match env.traceroute
    case Some(Raised(e)) => assert ("⚠ Traceroute error: " + e)[0] == '⚠';
    case _ =>
  }

  /** The firewall status is returned unless IPv6 is not supported or
      `ip6tables` ran and printed only whitespace. */
  lemma FirewallShown(env: Env)
    ensures FirewallStatus(env) == "" <==>
              !Supported(env) || (env.ip6tables.Some? && env.ip6tables.value.Ran? && Strip(env.ip6tables.value.stdout) == "")
  {
    match env.ip6tables
    case Some(Raised(e)) => assert ("⚠ ip6tables error: " + e)[0] == '⚠';
    case _ =>
  }

  /** The router-advertisement check logs only its not-installed line
      exactly when radvdump is missing. */
  lemma RadvdumpFallback(env: Env)
    ensures RadvdumpLines(env) == [NoRadvdumpLine] <==> env.radvdump.None?
  {
    if env.radvdump.Some? {
      assert |RadvdumpLines(env)| == 2;
    }
  }

  /** After its header the IPsec check logs the not-installed line exactly
      when the IPsec tool is missing. */
  lemma IpsecFallback(env: Env)
    ensures IpsecLines(env)[1..] == [NoIpsecLine] <==> env.ipsec.None?
  {
    match env.ipsec {
      case None =>
      case Some(Ran(out)) =>
        assert IpsecActiveLine[0] != NoIpsecLine[0];
        assert |IpsecIdleLine| != |NoIpsecLine|;
      case Some(Raised(e)) =>
        assert ("⚠ IPsec status error: " + e)[0] != NoIpsecLine[0];
    }
  }

  /** A missing tool gives its fixed message instead of output: traceroute
      and ip6tables are reported as not installed or available, and the
      router-advertisement and IPsec checks log their not-installed lines
      exactly when their tool is missing. */
  lemma ToolFallbacks(env: Env)
    ensures env.traceroute.None? ==> TracerouteOutput(env) == "⚠ 'traceroute' is not installed on this system."
    ensures env.ip6tables.None? ==> FirewallOutput(env) == "⚠ ip6tables is not available on this system."
    ensures RadvdumpLines(env) == ["⚠ radvdump is not installed."] <==> env.radvdump.None?
    ensures IpsecLines(env)[1..] == ["ℹ IPsec tool is not installed."] <==> env.ipsec.None?
  {
    RadvdumpFallback(env);
    IpsecFallback(env);
  }

  /** The address inspection logs one temporary-address verdict and one
      autoconfiguration verdict, each matching its keyword. */
  lemma SecurityVerdicts(env: Env)
    requires env.ipAddrShow.Ran?
    ensures var lines := SecurityCheckLines(env);
            |lines| == 5
            && lines[3] == (if Contains(env.ipAddrShow.stdout, "temporary") then TemporaryOn else TemporaryOff)
            && lines[4] == (if Contains(env.ipAddrShow.stdout, "autoconf") then SlaacOn else SlaacOff)
  {
  }

  /** An output without "inet6 " has no address of any scope. */
  lemma {:induction false} CountInet6Absent(s: string, scope: string)
    requires !Contains(s, "inet6 ")
    ensures CountInet6(s, scope) == 0
    decreases |s|
  {
    if s != [] {
      assert !IsPrefix("inet6 ", s);
      CountInet6Absent(s[1..], scope);
    }
  }
}
