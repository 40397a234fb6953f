/** `run_security_tests` and the checks it runs in turn: risky open ports and
    the host firewall, DNS integrity and leak, proxy headers, HTTPS and VPN. */
module SecurityTester {

  import opened Base
  import opened Strings
  import opened Seqs
  import FirewallTester
  import ProxyTester

  /** The JSON of dnsleaktest.com: its list of responders, or the message of
      the exception the request or the decoding raised. */
  datatype LeakFetch = LeakServers(servers: seq<Responder>) | LeakFailed(error: string)

  /** Everything the checks read. `check_https_support` is not part of this
      model: the lines it logs are an input. A firewall tool that
      `shutil.which` does not find is `None`. */
  datatype Env = Env(
    system: string,
    netsh: ProcResult,
    ufw: Option<CmdResult>,
    iptables: Option<CmdResult>,
    firewalld: Option<CmdResult>,
    nslookup: string -> CmdResult,
    leak: LeakFetch,
    headers: ProxyTester.HeadersFetch,
    httpsLines: seq<string>,
    getoutput: string -> CmdResult)

  // ------------------------------------------------------------------
  // Firewall

  const RiskyLinePrefix := "🚨 Risky open ports detected: "
  const NoRiskyLine := "✅ No risky ports are open."

  /** The risky-port verdict of `check_firewall_and_ports`. */
  function RiskyLine(openPorts: seq<int>): string {
    var dangerous := FirewallTester.Dangerous(openPorts);
    if dangerous != [] then RiskyLinePrefix + IntListRepr(dangerous) else NoRiskyLine
  }

  const NetshFailedLine := "⚠ Failed to retrieve Windows firewall status."

  /** `check_windows_firewall_status`. */
  function WindowsFirewallLines(netsh: ProcResult): seq<string> {
    match netsh
    case Completed(rc, out) => if rc == 0 then [Take(Strip(out), 1000)] else [NetshFailedLine]
    case Failed(e) => ["⚠ Error checking Windows firewall: " + e]
  }

  datatype FirewallTool = Ufw | Iptables | Firewalld | NoTool

  /** The first of ufw, iptables and firewall-cmd that is installed. */
  function ToolOf(env: Env): FirewallTool {
    if env.ufw.Some? then Ufw
    else if env.iptables.Some? then Iptables
    else if env.firewalld.Some? then Firewalld
    else NoTool
  }

  const NoToolLine := "⚠ No firewall tool found."

  /** The label and the output a tool's run logs; only firewall-cmd output is not truncated. */
  function ToolLines(title: string, run: CmdResult, truncate: bool): seq<string> {
    match run
    case Ran(out) => [title, if truncate then Take(Strip(out), 1000) else Strip(out)]
    case Raised(e) => ["⚠ Error analyzing Linux firewall: " + e]
  }

  /** `analyze_linux_firewall_rules`. */
  function LinuxFirewallLines(env: Env): seq<string> {
    match ToolOf(env)
    case Ufw => ToolLines("UFW:", env.ufw.value, true)
    case Iptables => ToolLines("iptables:", env.iptables.value, true)
    case Firewalld => ToolLines("firewalld:", env.firewalld.value, false)
    case NoTool => [NoToolLine]
  }

  const UnknownOsLine := "⚠ Unknown OS - skipping firewall test."

  function OsFirewallLines(env: Env): seq<string> {
    var os := Lower(env.system);
    if os == "windows" then WindowsFirewallLines(env.netsh)
    else if os == "linux" then LinuxFirewallLines(env)
    else [UnknownOsLine]
  }

  const FirewallHeader := "🛡 Checking firewall and open ports..."

  /** `check_firewall_and_ports`. */
  function FirewallLines(env: Env, openPorts: seq<int>): seq<string> {
    [FirewallHeader, RiskyLine(openPorts)] + OsFirewallLines(env)
  }

  // ------------------------------------------------------------------
  // DNS integrity

  const FakeDomain := "nonexistent.example.dns"

  /** The resolvers in dictionary order: name and address. */
  const Resolvers: seq<(string, string)> := [("Google", "8.8.8.8"), ("Cloudflare", "1.1.1.1"), ("OpenDNS", "208.67.222.222")]

  /** The line one resolver's `nslookup` gives. */
  function ResolverLine(env: Env, r: (string, string)): string {
    match env.nslookup(r.1)
    case Ran(stdout) =>
      var out := Strip(stdout);
      if Contains(out, "Address:") then HijackPrefix + (r.0 + ": " + out)
      else "✅ " + r.0 + " did not resolve fake domain."
    case Raised(e) => ResolverFailPrefix + (r.0 + ": " + e)
  }

  const HijackPrefix := "⚠ Potential DNS Hijacking via "
  const ResolverFailPrefix := "⚠ DNS test failed for "

  function ResponderLine(s: Responder): string {
    "🔎 DNS responder: " + GetOr(s.ip, "Unknown") + " (" + GetOr(s.country, "Unknown") + ")"
  }

  const NoServersLine := "⚠ No DNS servers returned."

  function LeakLines(leak: LeakFetch): seq<string> {
    match leak
    case LeakServers(servers) => if servers != [] then Map(servers, ResponderLine) else [NoServersLine]
    case LeakFailed(e) => ["⚠ DNS leak check failed: " + e]
  }

  const DnsHeader := "🧪 Checking DNS integrity..."

  /** `check_dns_integrity`. */
  function DnsIntegrityLines(env: Env): seq<string> {
    [DnsHeader] + ResolverLines(env, Resolvers) + LeakLines(env.leak)
  }

  // ------------------------------------------------------------------
  // Proxy headers

  const Indicators: seq<string> := ["Via", "X-Forwarded-For", "X-Real-IP", "Forwarded", "Client-IP"]

  /** The warning for an indicator header and its value. */
  function IndicatorAlert(headers: map<string, string>, h: string): string {
    "⚠ Proxy header detected → " + h + ": " + (if h in headers then headers[h] else "")
  }

  /** The line an indicator logs when it is among the headers. */
  function IndicatorLine(headers: map<string, string>, h: string): seq<string> {
    if h in headers then [IndicatorAlert(headers, h)] else []
  }

  predicate AnyIndicator(headers: map<string, string>) {
    exists i :: 0 <= i < |Indicators| && Indicators[i] in headers
  }

  const NoProxyLine := "✅ No proxy headers found."
  const ProxyHeader := "📡 Checking proxy headers..."

  /** The indicator lines of the names in `hs`, in order. */
  function IndicatorLines(headers: map<string, string>, hs: seq<string>): seq<string> {
    FlatMap(hs, h => IndicatorLine(headers, h))
  }

  lemma IndicatorLinesSnoc(headers: map<string, string>, hs: seq<string>, h: string)
    ensures IndicatorLines(headers, hs + [h]) == IndicatorLines(headers, hs) + IndicatorLine(headers, h)
  {
    FlatMapSnoc(hs, h, x => IndicatorLine(headers, x));
  }

  /** `check_proxy_headers`. */
  function ProxyLines(fetch: ProxyTester.HeadersFetch): seq<string> {
    [ProxyHeader]
    + match fetch
      case Headers(h) => IndicatorLines(h, Indicators) + (if !AnyIndicator(h) then [NoProxyLine] else [])
      case FetchFailed(e) => ["⚠ Error checking proxy headers: " + e]
  }

  // ------------------------------------------------------------------
  // VPN

  function VpnCommand(system: string): string {
    if Lower(system) == "windows" then "ipconfig" else "ifconfig"
  }

  /** `any(k in output.lower() for k in ["tun", "ppp", "vpn"])`. */
  predicate TunnelListed(output: string) {
    var low := Lower(output);
    Contains(low, "tun") || Contains(low, "ppp") || Contains(low, "vpn")
  }

  const VpnHeader := "🌐 Checking VPN/IPSec..."
  const TunnelLine := "✅ VPN or tunnel interface detected."
  const NoTunnelLine := "ℹ No active VPN/IPSec interface found."

  /** `check_vpn_ipsec`. */
  function VpnLines(env: Env): seq<string> {
    [VpnHeader]
    + match env.getoutput(VpnCommand(env.system))
      case Ran(out) => [if TunnelListed(out) then TunnelLine else NoTunnelLine]
      case Raised(e) => ["⚠ VPN check failed: " + e]
  }

  // ------------------------------------------------------------------
  // The whole assessment

  const StartLine := "🔒 Starting full security assessment..."
  const DoneLine := "✅ Security checks completed."

  /** `run_security_tests`: the checks in the order firewall, DNS, proxy,
      HTTPS, VPN, between the start and completion lines. */
  function SecurityLines(env: Env, openPorts: seq<int>): seq<string> {
    [StartLine] + FirewallLines(env, openPorts) + DnsIntegrityLines(env) + ProxyLines(env.headers)
    + env.httpsLines + VpnLines(env) + [DoneLine]
  }

  // ------------------------------------------------------------------
  // The checks that loop

  /** The lines of the resolvers in `rs`. */
  function ResolverLines(env: Env, rs: seq<(string, string)>): seq<string> {
    Map(rs, r => ResolverLine(env, r))
  }

  lemma ResolverLinesSnoc(env: Env, rs: seq<(string, string)>, r: (string, string))
    ensures ResolverLines(env, rs + [r]) == ResolverLines(env, rs) + [ResolverLine(env, r)]
  {
    MapSnoc(rs, r, x => ResolverLine(env, x));
  }

  /** One resolver's `nslookup` of the fake domain. */
  method CheckResolver(env: Env, name: string, ip: string) returns (line: string)
    ensures line == ResolverLine(env, (name, ip))
  {
    match env.nslookup(ip) {
      case Ran(stdout) =>
        var out := Strip(stdout);
        if Contains(out, "Address:") {
          line := "⚠ Potential DNS Hijacking via " + name + ": " + out;
        } else {
          line := "✅ " + name + " did not resolve fake domain.";
        }
      case Raised(e) =>
        line := "⚠ DNS test failed for " + name + ": " + e;
    }
  }

  /** `check_dns_integrity`: one line per resolver, each resolver's exception
      caught on its own, then the leak test. */
  method CheckDnsIntegrity(env: Env) returns (lines: seq<string>)
    ensures lines == DnsIntegrityLines(env)
  {
    var rs := Resolvers;
    var body := [];
    for k := 0 to |rs|
      invariant body == ResolverLines(env, rs[..k])
    {
      var line := CheckResolver(env, rs[k].0, rs[k].1);
      ResolverLinesSnoc(env, rs[..k], rs[k]);
      assert rs[..k + 1] == rs[..k] + [rs[k]];
      body := body + [line];
    }
    assert rs[..|rs|] == rs;
    var leak := LeakTest(env.leak);
    lines := [DnsHeader] + body + leak;
  }

  /** The leak test's responder loop. */
  method LeakTest(leak: LeakFetch) returns (lines: seq<string>)
    ensures lines == LeakLines(leak)
  {
    match leak {
      case LeakFailed(e) =>
        lines := ["⚠ DNS leak check failed: " + e];
      case LeakServers(servers) =>
        if servers == [] {
          lines := [NoServersLine];
        } else {
          lines := [];
          for k := 0 to |servers|
            invariant lines == Map(servers[..k], ResponderLine)
          {
            MapSnoc(servers[..k], servers[k], ResponderLine);
            assert servers[..k + 1] == servers[..k] + [servers[k]];
            lines := lines + [ResponderLine(servers[k])];
          }
          assert servers[..|servers|] == servers;
        }
    }
  }

  /** `check_proxy_headers`: one line per indicator present, in list order,
      then the clean line when there was none. */
  method CheckProxyHeaders(fetch: ProxyTester.HeadersFetch) returns (lines: seq<string>)
    ensures lines == ProxyLines(fetch)
  {
    match fetch {
      case FetchFailed(e) =>
        lines := [ProxyHeader] + ["⚠ Error checking proxy headers: " + e];
      case Headers(headers) =>
        var hs := Indicators;
        var body := [];
        var seen := false;
        for k := 0 to |hs|
          invariant body == IndicatorLines(headers, hs[..k])
          invariant seen <==> exists i :: 0 <= i < k && hs[i] in headers
        {
          var line := IndicatorLine(headers, hs[k]);
          IndicatorLinesSnoc(headers, hs[..k], hs[k]);
          assert hs[..k + 1] == hs[..k] + [hs[k]];
          body := body + line;
          seen := seen || hs[k] in headers;
        }
        assert hs[..|hs|] == hs;
        if !seen {
          body := body + [NoProxyLine];
        }
        lines := [ProxyHeader] + body;
    }
  }

  /** `run_security_tests`. */
  method RunSecurityTests(env: Env, openPorts: seq<int>) returns (lines: seq<string>)
    ensures lines == SecurityLines(env, openPorts)
  {
    lines := [StartLine];
    lines := lines + FirewallLines(env, openPorts);
    var dns := CheckDnsIntegrity(env);
    lines := lines + dns;
    var proxy := CheckProxyHeaders(env.headers);
    lines := lines + proxy;
    lines := lines + env.httpsLines;
    lines := lines + VpnLines(env);
    lines := lines + [DoneLine];
  }

  // ------------------------------------------------------------------
  // Properties

  /** The risky-port line warns exactly when a risky port is open, and the
      clean line appears exactly when none is. */
  lemma RiskyVerdict(openPorts: seq<int>)
    ensures RiskyLine(openPorts) == NoRiskyLine
            <==> forall i :: 0 <= i < |openPorts| ==> openPorts[i] !in FirewallTester.RiskyPorts
  {
    var dangerous := FirewallTester.Dangerous(openPorts);
    if dangerous != [] {
      assert RiskyLine(openPorts)[0] == '🚨';
      FirewallTester.DangerousMembers(openPorts, dangerous[0]);
    } else {
      forall i | 0 <= i < |openPorts|
        ensures openPorts[i] !in FirewallTester.RiskyPorts
      {
        FirewallTester.DangerousMembers(openPorts, openPorts[i]);
      }
    }
  }

  /** The port verdict comes right after the header whatever the system,
      and the OS branch follows it. */
  lemma FirewallShape(env: Env, openPorts: seq<int>)
    ensures FirewallLines(env, openPorts)[..2] == [FirewallHeader, RiskyLine(openPorts)]
    ensures FirewallLines(env, openPorts)[2..] == OsFirewallLines(env)
  {
  }

  /** The OS branch reads the system name only up to case, and skips the
      firewall test on any system but Windows and Linux. */
  lemma OsBranch(env: Env, system: string)
    requires Lower(system) == Lower(env.system)
    ensures OsFirewallLines(env) == OsFirewallLines(env.(system := system))
    ensures (Lower(env.system) != "windows" && Lower(env.system) != "linux")
              ==> OsFirewallLines(env) == [UnknownOsLine]
  {
    var other := env.(system := system);
    assert ToolOf(other) == ToolOf(env);
    assert LinuxFirewallLines(other) == LinuxFirewallLines(env);
  }

  /** A firewall tool that is found shadows every tool after it: ufw before
      iptables before firewall-cmd. */
  lemma ToolPriority(env: Env, iptables: Option<CmdResult>, firewalld: Option<CmdResult>)
    ensures env.ufw.Some? ==>
              LinuxFirewallLines(env) == LinuxFirewallLines(env.(iptables := iptables, firewalld := firewalld))
    ensures env.ufw.None? && env.iptables.Some? ==>
              LinuxFirewallLines(env) == LinuxFirewallLines(env.(firewalld := firewalld))
    ensures LinuxFirewallLines(env) == [NoToolLine]
            <==> env.ufw.None? && env.iptables.None? && env.firewalld.None?
  {
    match ToolOf(env)
    case NoTool =>
    case Ufw => assert |LinuxFirewallLines(env)| == 2 || LinuxFirewallLines(env)[0][2] == 'E';
    case Iptables => assert |LinuxFirewallLines(env)| == 2 || LinuxFirewallLines(env)[0][2] == 'E';
    case Firewalld => assert |LinuxFirewallLines(env)| == 2 || LinuxFirewallLines(env)[0][2] == 'E';
  }

  /** ufw and iptables output is cut to 1000 characters of its stripped
      text; firewall-cmd output is logged stripped but whole. */
  lemma ToolOutputBounds(env: Env)
    ensures ToolOf(env) in {Ufw, Iptables} && |LinuxFirewallLines(env)| == 2 ==>
              |LinuxFirewallLines(env)[1]| <= 1000
    ensures ToolOf(env) == Firewalld && env.firewalld.value.Ran? ==>
              LinuxFirewallLines(env)[1] == Strip(env.firewalld.value.stdout)
  {
  }

  /** On Windows the firewall test logs one line: the stripped `netsh`
      output cut to its first 1000 characters when the command exits with 0,
      the failure line for any other exit code, and the error line when it
      cannot run. */
  lemma WindowsFirewallCases(env: Env)
    requires Lower(env.system) == "windows"
    ensures OsFirewallLines(env) == WindowsFirewallLines(env.netsh) && |OsFirewallLines(env)| == 1
    ensures env.netsh.Completed? && env.netsh.returncode == 0 ==>
              var line := OsFirewallLines(env)[0];
              && |line| <= 1000 && IsPrefix(line, Strip(env.netsh.out))
              && (|Strip(env.netsh.out)| <= 1000 ==> line == Strip(env.netsh.out))
              && (|Strip(env.netsh.out)| > 1000 ==> |line| == 1000)
    ensures env.netsh.Completed? && env.netsh.returncode != 0 ==> OsFirewallLines(env) == [NetshFailedLine]
    ensures env.netsh.Failed? ==> OsFirewallLines(env) == ["⚠ Error checking Windows firewall: " + env.netsh.reason]
  {
  }

  /** The first character of a hijack warning, and its third, tell it apart
      from the clean line and the failure line. */
  predicate HijackReported(line: string) {
    IsPrefix(HijackPrefix, line)
  }

  /** A resolver is reported as hijacking exactly when its `nslookup` ran and
      the stripped output has an `Address:` line. */
  lemma ResolverVerdict(env: Env, r: (string, string))
    ensures HijackReported(ResolverLine(env, r))
            <==> env.nslookup(r.1).Ran? && Contains(Strip(env.nslookup(r.1).stdout), "Address:")
  {
    var line := ResolverLine(env, r);
    match env.nslookup(r.1)
    case Ran(stdout) =>
      if Contains(Strip(stdout), "Address:") {
        PrefixOfConcat(HijackPrefix, r.0 + ": " + Strip(stdout));
      } else {
        assert line[0] == '✅' != HijackPrefix[0];
      }
    case Raised(e) =>
      assert line[2] == ResolverFailPrefix[2] != HijackPrefix[2];
  }

  /** Every resolver gets its line, in order: a failure of one does not stop
      the others being asked. */
  lemma EveryResolverAsked(env: Env)
    ensures |ResolverLines(env, Resolvers)| == |Resolvers|
    ensures forall k :: 0 <= k < |Resolvers| ==> ResolverLines(env, Resolvers)[k] == ResolverLine(env, Resolvers[k])
    ensures forall k :: 0 <= k < |Resolvers| ==>
              ResolverLine(env, Resolvers[k]) == ResolverLine(env.(nslookup := ip => env.nslookup(Resolvers[k].1)), Resolvers[k])
  {
  }

  /** One line per indicator header that is present, in list order, and the
      clean line exactly when no indicator is present. */
  lemma ProxyVerdict(headers: map<string, string>)
    ensures IndicatorLines(headers, Indicators)
              == Map(Filter(Indicators, h => h in headers), h => IndicatorAlert(headers, h))
    ensures ProxyLines(ProxyTester.Headers(headers))
              == [ProxyHeader] + (if IndicatorLines(headers, Indicators) == [] then [NoProxyLine]
                                  else IndicatorLines(headers, Indicators))
  {
    var f := h => IndicatorLine(headers, h);
    assert IndicatorLines(headers, Indicators) == FlatMap(Indicators, f);
    FlatMapOfOptional(Indicators, f, h => h in headers, h => IndicatorAlert(headers, h));
    IndicatorLinesEmpty(headers);
  }

  /** No indicator line is logged exactly when no indicator is present. */
  lemma IndicatorLinesEmpty(headers: map<string, string>)
    ensures IndicatorLines(headers, Indicators) == [] <==> !AnyIndicator(headers)
  {
    var f := h => IndicatorLine(headers, h);
    assert IndicatorLines(headers, Indicators) == FlatMap(Indicators, f);
    FlatMapEmpty(Indicators, f);
    assert forall i :: 0 <= i < |Indicators| ==> (f(Indicators[i]) == [] <==> Indicators[i] !in headers);
  }

  /** The VPN check logs its header and one more line: the tunnel verdict
      exactly when the listing ran and names a tunnel in any case, the
      no-tunnel line exactly when it ran and names none, and otherwise the
      error. The listing is `ipconfig` exactly on Windows, up to case. */
  lemma VpnVerdict(env: Env)
    ensures |VpnLines(env)| == 2 && VpnLines(env)[0] == VpnHeader
    ensures var run := env.getoutput(VpnCommand(env.system));
      && (VpnLines(env)[1] == TunnelLine <==> run.Ran? && TunnelListed(run.stdout))
      && (VpnLines(env)[1] == NoTunnelLine <==> run.Ran? && !TunnelListed(run.stdout))
      && (run.Raised? ==> VpnLines(env)[1] == "⚠ VPN check failed: " + run.error)
    ensures VpnCommand(env.system) == "ipconfig" <==> Lower(env.system) == "windows"
  {
    var run := env.getoutput(VpnCommand(env.system));
    if run.Raised? {
      var line := "⚠ VPN check failed: " + run.error;
      assert line[0] == '⚠';
      assert TunnelLine[0] == '✅' && NoTunnelLine[0] == 'ℹ';
    }
  }

  /** Unlike `detect_vpn_ipsec`, all three markers are matched in any case:
      an upper-case `TUN0` interface counts. */
  lemma TunnelAnyCase()
    ensures TunnelListed("TUN0")
  {
    assert Lower("TUN0") == "tun0";
    assert IsPrefix("tun", "tun0");
  }
}
