/** `detect_vpn_ipsec`: which interface listing command runs and when its
    output is taken to show a VPN. */
module VpnDetector {

  import opened Base
  import opened Strings

  /** What the probe reads: the host name, and the output of
      `subprocess.getoutput` for each command (or the exception raised). */
  datatype Env = Env(hostname: string, getoutput: string -> CmdResult)

  /** "ipconfig" when the host name has no dot, "ifconfig" otherwise. */
  function VpnCommand(hostname: string): string {
    if '.' !in hostname then "ipconfig" else "ifconfig"
  }

  /** "tun" and "ppp" are matched as written, "vpn" in any case. */
  predicate VpnDetected(output: string) {
    Contains(output, "tun") || Contains(output, "ppp") || Contains(Lower(output), "vpn")
  }

  const Header := "🌐 Checking VPN/IPSec connection..."
  const DetectedLine := "✅ VPN connection detected."
  const NotDetectedLine := "ℹ️ No active VPN or IPSec connection."

  function VpnLines(env: Env): seq<string> {
    [Header]
    + match env.getoutput(VpnCommand(env.hostname))
      case Ran(out) => [if VpnDetected(out) then DetectedLine else NotDetectedLine]
      case Raised(e) => ["[!] Error while checking VPN: " + e]
  }

  /** Exactly one line follows the header: the detected line exactly when
      the chosen command ran and its output passes the detection predicate,
      the no-VPN line exactly when it ran and fails it, and the error line
      when the command raised. */
  lemma OneVerdict(env: Env)
    ensures |VpnLines(env)| == 2 && VpnLines(env)[0] == Header
    ensures var run := env.getoutput(VpnCommand(env.hostname));
      && (VpnLines(env)[1] == DetectedLine <==> run.Ran? && VpnDetected(run.stdout))
      && (VpnLines(env)[1] == NotDetectedLine <==> run.Ran? && !VpnDetected(run.stdout))
      && (run.Raised? ==> VpnLines(env)[1] == "[!] Error while checking VPN: " + run.error)
  {
    var run := env.getoutput(VpnCommand(env.hostname));
    assert DetectedLine != NotDetectedLine;
    if run.Raised? {
      var line := "[!] Error while checking VPN: " + run.error;
      assert line[0] == '[';
      assert DetectedLine[0] == '✅' && NotDetectedLine[0] == 'ℹ';
    }
  }

  /** An upper-case "TUN" alone is not detected, an upper-case "VPN" is. */
  lemma CaseOfMarkers()
    ensures !VpnDetected("TUN")
    ensures VpnDetected("VPN")
  {
    assert Lower("TUN") == "tun";
    MissingCharNotContained("tun", "vpn", 0);
    MissingCharNotContained("TUN", "tun", 0);
    MissingCharNotContained("TUN", "ppp", 0);
    assert Lower("VPN") == "vpn";
    assert IsPrefix("vpn", "vpn");
  }

  /** A dotless host name runs `ipconfig`, a dotted one `ifconfig`. */
  lemma CommandChoice(hostname: string)
    ensures VpnCommand(hostname) == "ipconfig" <==> forall i :: 0 <= i < |hostname| ==> hostname[i] != '.'
  {
  }
}
