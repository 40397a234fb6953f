/** `test_firewall_and_ports`: the open ports that belong to the fixed list of
    risky services, and the lines that report them. */
module FirewallTester {

  import opened Strings
  import opened Seqs

  /** FTP, Telnet, SMB, NetBIOS and RDP. */
  const RiskyPorts: seq<int> := [21, 23, 445, 139, 3389]

  predicate IsRisky(p: int) {
    p in RiskyPorts
  }

  /** `[p for p in open_ports if p in risky_ports]`. */
  function Dangerous(openPorts: seq<int>): seq<int> {
    Filter(openPorts, IsRisky)
  }

  const Header := "🧱 Checking firewall and open ports security..."
  const CloseAdvice := "⚠ It is highly recommended to close these ports or apply filtering rules."
  const CleanLine := "✅ No critical ports are open. Your firewall appears to be properly configured."

  function FirewallLines(openPorts: seq<int>): seq<string> {
    var dangerous := Dangerous(openPorts);
    [Header]
    + if dangerous != [] then ["🚨 Dangerous ports are open: " + IntListRepr(dangerous), CloseAdvice]
      else [CleanLine]
  }

  /** A port is reported exactly when it is open and risky. */
  lemma DangerousMembers(openPorts: seq<int>, p: int)
    ensures p in Dangerous(openPorts) <==> p in openPorts && p in RiskyPorts
  {
    FilterMembers(openPorts, IsRisky, p);
  }

  /** A risky port is reported as often as it occurs among the open ports,
      and any other port never. */
  lemma DangerousKeepsDuplicates(openPorts: seq<int>, p: int)
    ensures multiset(Dangerous(openPorts))[p] == if p in RiskyPorts then multiset(openPorts)[p] else 0
  {
    FilterMultiplicity(openPorts, IsRisky, p);
  }

  /** The report of two port lists one after the other is the two reports
      one after the other: the open ports' order is kept. */
  lemma DangerousKeepsOrder(a: seq<int>, b: seq<int>)
    ensures Dangerous(a + b) == Dangerous(a) + Dangerous(b)
  {
    FilterAppend(a, b, IsRisky);
  }

  /** The header comes first; two warning lines follow when a risky port is
      open, otherwise one clean line. */
  lemma FirewallLinesShape(openPorts: seq<int>)
    ensures FirewallLines(openPorts)[0] == Header
    ensures Dangerous(openPorts) != [] ==> |FirewallLines(openPorts)| == 3 && FirewallLines(openPorts)[2] == CloseAdvice
    ensures Dangerous(openPorts) == [] ==> FirewallLines(openPorts) == [Header, CleanLine]
  {
  }

  /** With no risky port open, only the clean line follows the header. */
  lemma NoRiskyPortsClean(openPorts: seq<int>)
    requires forall i :: 0 <= i < |openPorts| ==> openPorts[i] !in RiskyPorts
    ensures FirewallLines(openPorts) == [Header, CleanLine]
  {
    FilterNone(openPorts, IsRisky);
  }
}
