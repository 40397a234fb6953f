/** `run_all_dns_tests`, which exists twice with the same steps and different
    wording: once among the scanners and once in the analyzer's database
    module, where a slow answer is also flagged. */
module DnsSuite {

  import opened Base
  import opened Strings
  import opened Seqs
  import Network

  /** The scanner copy or the database copy of the test run. */
  datatype Variant = Scanner | Database

  /** `check_latency_alert`: slower than 300 ms. */
  predicate LatencyAlert(latency: int) {
    latency > 300
  }

  /** The nine resolvers, address and name, in the order they are asked. */
  const DnsServers: seq<(string, string)> := [
    ("1.1.1.1", "Cloudflare"), ("8.8.8.8", "Google"), ("9.9.9.9", "Quad9"),
    ("208.67.222.222", "OpenDNS"), ("76.76.2.0", "Control D"), ("94.140.14.14", "AdGuard"),
    ("2606:4700:4700::1111", "Cloudflare IPv6"), ("2001:4860:4860::8888", "Google IPv6"),
    ("2620:fe::fe", "Quad9 IPv6")]

  /** A server's answer for example.com: its first record and the time it
      took in whole milliseconds, or the message of the exception raised
      (including an answer without a first record). */
  datatype ServerReply = Replied(first: string, elapsed: nat) | NoReply(error: string)

  /** A lookup whose records are only checked for being non-empty. */
  datatype Lookup = Records(records: seq<string>) | LookupError(error: string)

  /** What a run reads: the platform name, each server's reply by address,
      the validation lookup, the DNS-over-HTTPS reply, the lookup of the
      fake domain, and the four commands (`ipconfig /displaydns`,
      `systemd-resolve --statistics`, `ipconfig /all`, `cat /etc/resolv.conf`). */
  datatype Env = Env(
    system: string,
    query: string -> ServerReply,
    validation: Lookup,
    doh: HttpReply,
    hijack: DnsLookup,
    displayDns: CmdResult,
    resolveStatistics: CmdResult,
    ipconfigAll: CmdResult,
    resolvConf: CmdResult)

  predicate OnWindows(env: Env) {
    Lower(env.system) == "windows"
  }

  // ------------------------------------------------------------------
  // Per-server loop

  /** The success line; `elapsed:.1f` of a whole number of milliseconds. */
  function SuccessLine(v: Variant, server: (string, string), first: string, elapsed: nat): string {
    var (ip, name) := server;
    var time := first + " ⏱ " + WholeFixed(elapsed, 1) + " ms";
    match v
    case Scanner => "✅ DNS " + name + " (" + ip + ") responded. IP: " + time
    case Database =>
      "✅ " + name + " DNS (" + ip + ") responded. IP: " + time + (if LatencyAlert(elapsed) then " 🚨" else "")
  }

  function FailureLine(v: Variant, server: (string, string), e: string): string {
    var (ip, name) := server;
    match v
    case Scanner => "❌ DNS " + name + " (" + ip + ") failed to respond: " + e
    case Database => "❌ " + name + " DNS (" + ip + ") failed to respond: " + e
  }

  function ServerLine(v: Variant, env: Env, server: (string, string)): string {
    match env.query(server.0)
    case Replied(first, elapsed) => SuccessLine(v, server, first, elapsed)
    case NoReply(e) => FailureLine(v, server, e)
  }

  /** What a server adds to `times`. */
  function TimeEntry(env: Env, server: (string, string)): seq<(string, nat)> {
    match env.query(server.0)
    case Replied(_, elapsed) => [(server.1, elapsed)]
    case NoReply(_) => []
  }

  function ServerLines(v: Variant, env: Env, servers: seq<(string, string)>): seq<string> {
    Map(servers, s => ServerLine(v, env, s))
  }

  /** `times` after the loop over `servers`. */
  function Times(env: Env, servers: seq<(string, string)>): seq<(string, nat)> {
    FlatMap(servers, s => TimeEntry(env, s))
  }

  lemma ServerLinesSnoc(v: Variant, env: Env, servers: seq<(string, string)>, s: (string, string))
    ensures ServerLines(v, env, servers + [s]) == ServerLines(v, env, servers) + [ServerLine(v, env, s)]
  {
    MapSnoc(servers, s, x => ServerLine(v, env, x));
  }

  lemma TimesSnoc(env: Env, servers: seq<(string, string)>, s: (string, string))
    ensures Times(env, servers + [s]) == Times(env, servers) + TimeEntry(env, s)
  {
    FlatMapSnoc(servers, s, x => TimeEntry(env, x));
  }

  const ChartPath := "/mnt/data/dns_response_times.png"

  /** The chart notice, logged when some server answered. */
  function ChartLines(v: Variant, times: seq<(string, nat)>): seq<string> {
    if times == [] then []
    else match v
      case Scanner => ["📊 DNS response time chart saved: " + ChartPath]
      case Database => ["📊 DNS response time chart saved to: " + ChartPath]
  }

  // ------------------------------------------------------------------
  // The single checks

  function ValidationLines(v: Variant, lookup: Lookup): seq<string> {
    match v
    case Scanner =>
      ["\n🔍 DNS Response Validation:"]
      + (match lookup
         case Records(rs) => if rs != [] then ["✔ Valid response received: " + rs[0]] else []
         case LookupError(e) => ["⚠ Error during DNS response validation: " + e])
    case Database =>
      ["\n🔍 DNS response validity analysis:"]
      + match lookup
        case Records(rs) => if rs != [] then ["✔ Valid response: " + rs[0]] else []
        case LookupError(e) => ["⚠ Error in DNS response analysis: " + e]
  }

  const DohOkLine := "✔ DoH response received."
  const DohFailedLine := "❌ Failed to receive DoH response."

  /** `r.ok` of `requests`: `raise_for_status()` raises only for a client
      error (400-499) or a server error (500-599), so every other status is
      ok. */
  predicate ReplyOk(code: int) {
    !(400 <= code < 600)
  }

  function DohLines(v: Variant, reply: HttpReply): seq<string> {
    [if v.Scanner? then "\n🔐 Checking DNS over HTTPS (DoH):" else "\n🔐 Testing DNS over HTTPS (DoH):"]
    + match reply
      case Status(code) => [if ReplyOk(code) then DohOkLine else DohFailedLine]
      case RequestFailed(e) => [(if v.Scanner? then "⚠ DoH check error: " else "⚠ DoH test error: ") + e]
  }

  const FakeDomain := "nonexistentdomain123456789.com"

  function HijackedLine(v: Variant): string {
    if v.Scanner? then "⚠ Unexpected response for fake domain; possible DNS Hijacking detected!"
    else "⚠ Unexpected response for fake domain. Hijacking suspected!"
  }

  function NormalLine(v: Variant): string {
    if v.Scanner? then "✔ No response for fake domain; behavior is normal."
    else "✔ No response for fake domain. Normal behavior."
  }

  function HijackErrorLine(v: Variant, e: string): string {
    (if v.Scanner? then "⚠ Error during Hijacking test: " else "⚠ Hijacking test error: ") + e
  }

  /** The fake-domain lookup: an answer with records is suspicious, an empty
      one logs nothing, NXDOMAIN is normal and any other error is logged. */
  function HijackVerdictLines(v: Variant, lookup: DnsLookup): seq<string> {
    match lookup
    case Answer(rs) => if rs != [] then [HijackedLine(v)] else []
    case NXDomain => [NormalLine(v)]
    case OtherError(e) => [HijackErrorLine(v, e)]
  }

  function HijackLines(v: Variant, lookup: DnsLookup): seq<string> {
    [if v.Scanner? then "\n🧪 Checking for DNS Hijacking:" else "\n🧪 Testing DNS Hijacking:"]
    + HijackVerdictLines(v, lookup)
  }

  /** The cache listing: on Windows cut to 1000 characters and not
      stripped, elsewhere stripped and whole. */
  function CacheOutput(env: Env): Option<string> {
    if OnWindows(env) then (if env.displayDns.Ran? then Some(Take(env.displayDns.stdout, 1000)) else None)
    else if env.resolveStatistics.Ran? then Some(Strip(env.resolveStatistics.stdout)) else None
  }

  function CacheLines(v: Variant, env: Env): seq<string> {
    var run := if OnWindows(env) then env.displayDns else env.resolveStatistics;
    [if v.Scanner? then "\n🗂 Checking DNS Cache Configuration:" else "\n🗂 DNS Cache Inspection:"]
    + match run
      case Ran(_) => [CacheOutput(env).value]
      case Raised(e) => [(if v.Scanner? then "⚠ Error checking DNS cache: " else "⚠ DNS cache check error: ") + e]
  }

  predicate ListsDnsServers(line: string) {
    Contains(line, "DNS Servers")
  }

  /** The line a line of `ipconfig /all` contributes, if it lists servers. */
  function SettingEntry(line: string): seq<string> {
    if ListsDnsServers(line) then ["→ " + Strip(line)] else []
  }

  /** The Windows settings lines: `dns_lines`, each logged with the arrow. */
  function SettingEntries(out: string): seq<string> {
    FlatMap(SplitLines(out), SettingEntry)
  }

  function SettingsLines(v: Variant, env: Env): seq<string> {
    var run := if OnWindows(env) then env.ipconfigAll else env.resolvConf;
    [if v.Scanner? then "\n🔍 Checking System DNS Settings:" else "\n🔍 System DNS configuration:"]
    + match run
      case Ran(out) => if OnWindows(env) then SettingEntries(out) else [Strip(out)]
      case Raised(e) =>
        [(if v.Scanner? then "⚠ Error fetching DNS settings: " else "⚠ Error retrieving system DNS config: ") + e]
  }

  function Header(v: Variant): string {
    if v.Scanner? then "🧪 Running DNS Tests..." else "🧪 Running DNS tests..."
  }

  /** The checks after the server loop, in order. */
  function LaterChecks(v: Variant, env: Env): seq<string> {
    ValidationLines(v, env.validation) + DohLines(v, env.doh) + HijackLines(v, env.hijack)
    + CacheLines(v, env) + SettingsLines(v, env)
  }

  /** The whole log of `run_all_dns_tests` over `servers`. */
  function SuiteLines(v: Variant, env: Env, servers: seq<(string, string)>): seq<string> {
    [Header(v)] + ServerLines(v, env, servers) + ChartLines(v, Times(env, servers)) + LaterChecks(v, env)
  }

  // ------------------------------------------------------------------
  // The run

  /** The per-server loop: a line for every server, a time for each that
      answered. */
  method ServerLoop(v: Variant, env: Env, servers: seq<(string, string)>)
    returns (lines: seq<string>, times: seq<(string, nat)>)
    ensures lines == ServerLines(v, env, servers)
    ensures times == Times(env, servers)
  {
    lines, times := [], [];
    for k := 0 to |servers|
      invariant lines == ServerLines(v, env, servers[..k])
      invariant times == Times(env, servers[..k])
    {
      var s := servers[k];
      ServerLinesSnoc(v, env, servers[..k], s);
      TimesSnoc(env, servers[..k], s);
      assert servers[..k + 1] == servers[..k] + [s];
      match env.query(s.0) {
        case Replied(first, elapsed) =>
          lines := lines + [SuccessLine(v, s, first, elapsed)];
          times := times + [(s.1, elapsed)];
        case NoReply(e) =>
          lines := lines + [FailureLine(v, s, e)];
      }
    }
    assert servers[..|servers|] == servers;
  }

  /** The `for line in dns_lines` loop. */
  method LogSettingEntries(out: string) returns (lines: seq<string>)
    ensures lines == SettingEntries(out)
  {
    lines := LogServerLines(SplitLines(out));
  }

  /** The loop itself, over the lines of the output. */
  method LogServerLines(all: seq<string>) returns (lines: seq<string>)
    ensures lines == FlatMap(all, SettingEntry)
  {
    lines := [];
    for k := 0 to |all|
      invariant lines == FlatMap(all[..k], SettingEntry)
    {
      FlatMapPrefixStep(all, k, SettingEntry);
      if ListsDnsServers(all[k]) {
        lines := lines + ["→ " + Strip(all[k])];
      }
    }
    assert all[..|all|] == all;
  }

  /** The system DNS settings check. */
  method CheckSettings(v: Variant, env: Env) returns (lines: seq<string>)
    ensures lines == SettingsLines(v, env)
  {
    var header := if v.Scanner? then "\n🔍 Checking System DNS Settings:" else "\n🔍 System DNS configuration:";
    var run := if OnWindows(env) then env.ipconfigAll else env.resolvConf;
    match run {
      case Ran(out) =>
        if OnWindows(env) {
          var entries := LogSettingEntries(out);
          lines := [header] + entries;
        } else {
          lines := [header] + [Strip(out)];
        }
      case Raised(e) =>
        var prefix := if v.Scanner? then "⚠ Error fetching DNS settings: " else "⚠ Error retrieving system DNS config: ";
        lines := [header] + [prefix + e];
    }
  }

  /** `run_all_dns_tests`: the log, and `times`. */
  method RunAllDnsTests(v: Variant, env: Env) returns (lines: seq<string>, times: seq<(string, nat)>)
    ensures lines == SuiteLines(v, env, DnsServers)
    ensures times == Times(env, DnsServers)
  {
    var servers := DnsServers;
    var serverLines;
    serverLines, times := ServerLoop(v, env, servers);
    var settings := CheckSettings(v, env);
    var later := ValidationLines(v, env.validation) + DohLines(v, env.doh) + HijackLines(v, env.hijack)
                 + CacheLines(v, env) + settings;
    lines := [Header(v)] + serverLines + ChartLines(v, times) + later;
  }

  // ------------------------------------------------------------------
  // Properties

  /** Only the database copy flags slow answers, and it does so exactly
      above 300 ms: 300 itself is not an alert. */
  lemma AlertSuffix(server: (string, string), first: string, elapsed: nat)
    ensures var line := SuccessLine(Database, server, first, elapsed);
            line[|line| - 1] == '🚨' <==> LatencyAlert(elapsed)
    ensures var line := SuccessLine(Scanner, server, first, elapsed);
            line[|line| - 1] == 's'
    ensures !LatencyAlert(300) && LatencyAlert(301)
  {
  }

  /** The server replied. */
  predicate Answered(env: Env, server: (string, string)) {
    env.query(server.0).Replied?
  }

  /** The `times` entry of a server that replied. */
  function TimeOf(env: Env, server: (string, string)): (string, nat) {
    (server.1, if env.query(server.0).Replied? then env.query(server.0).elapsed else 0)
  }

  /** `times` holds one `(name, elapsed)` pair per server that replied, in
      server order, and nothing for the others: at most nine entries. */
  lemma TimesOfAnswered(env: Env, servers: seq<(string, string)>)
    ensures Times(env, servers) == Map(Filter(servers, s => Answered(env, s)), s => TimeOf(env, s))
    ensures |Times(env, DnsServers)| <= 9
  {
    FlatMapOfOptional(servers, s => TimeEntry(env, s), s => Answered(env, s), s => TimeOf(env, s));
    FlatMapAtMostOne(DnsServers, s => TimeEntry(env, s));
  }

  /** Every server logs exactly one line, a success line exactly when it
      replied. */
  lemma OneLinePerServer(v: Variant, env: Env, servers: seq<(string, string)>)
    ensures |ServerLines(v, env, servers)| == |servers|
    ensures forall i :: 0 <= i < |servers| ==>
              (ServerLines(v, env, servers)[i][0] == '✅' <==> Answered(env, servers[i]))
  {
    forall i | 0 <= i < |servers|
      ensures ServerLines(v, env, servers)[i][0] == '✅' <==> Answered(env, servers[i])
    {
      var line := ServerLines(v, env, servers)[i];
      assert line == ServerLine(v, env, servers[i]);
      if Answered(env, servers[i]) {
        assert line[0] == '✅';
      } else {
        assert line[0] == '❌';
      }
    }
  }

  /** The chart notice is logged exactly when some server replied. */
  lemma ChartIffAnswered(v: Variant, env: Env, servers: seq<(string, string)>)
    ensures ChartLines(v, Times(env, servers)) != []
            <==> exists i :: 0 <= i < |servers| && Answered(env, servers[i])
  {
    FlatMapEmpty(servers, s => TimeEntry(env, s));
  }

  /** The fake-domain check follows the tri-state of `detect_dns_hijacking`:
      an answer is suspicious (an empty one logs nothing), NXDOMAIN is
      normal, and any other error is only logged, never read as normal. */
  lemma HijackAgreesWithNetwork(v: Variant, resolve: (string, string) -> DnsLookup, server: string)
    ensures var lookup := resolve(FakeDomain, server);
            var verdict := Network.DetectDnsHijacking(resolve, FakeDomain, server);
            (verdict == Some(true) ==>
               HijackVerdictLines(v, lookup) == if lookup.records != [] then [HijackedLine(v)] else [])
            && (verdict == Some(false) ==> HijackVerdictLines(v, lookup) == [NormalLine(v)])
            && (verdict == None ==> HijackVerdictLines(v, lookup) == [HijackErrorLine(v, lookup.message)])
  {
    Network.TriState(resolve, FakeDomain, server);
  }

  /** On Windows the settings are exactly the `ipconfig /all` lines that
      mention "DNS Servers", stripped, with the arrow, in their order. */
  lemma SettingsFilter(out: string)
    ensures SettingEntries(out) == Map(Filter(SplitLines(out), ListsDnsServers), l => "→ " + Strip(l))
    ensures |SettingEntries(out)| <= |SplitLines(out)|
  {
    FlatMapOfOptional(SplitLines(out), SettingEntry, ListsDnsServers, l => "→ " + Strip(l));
  }

  /** The Windows cache listing is cut to 1000 characters; elsewhere it is
      the whole stripped output. */
  lemma CacheOutputBounds(v: Variant, env: Env)
    ensures OnWindows(env) && env.displayDns.Ran? ==>
              CacheLines(v, env)[1] == Take(env.displayDns.stdout, 1000) && |CacheLines(v, env)[1]| <= 1000
    ensures !OnWindows(env) && env.resolveStatistics.Ran? ==>
              CacheLines(v, env)[1] == Strip(env.resolveStatistics.stdout)
  {
  }

  /** The DoH reply counts as received exactly when its status is neither a
      client nor a server error; the failure line is logged otherwise. */
  lemma DohVerdict(v: Variant, code: int)
    ensures |DohLines(v, Status(code))| == 2
    ensures DohLines(v, Status(code))[1] == DohOkLine <==> code < 400 || code >= 600
    ensures DohLines(v, Status(code))[1] == DohFailedLine <==> 400 <= code < 600
  {
    assert |DohOkLine| != |DohFailedLine|;
  }
}
