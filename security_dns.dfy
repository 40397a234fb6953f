/** The DNS hijacking and leak tests of the security package: what each
    lookup, `nslookup` run or HTTP reply is classified as. */
module SecurityDns {

  import opened Base
  import opened Strings
  import opened Seqs
  import SecurityTester

  // ------------------------------------------------------------------
  // Simple hijacking test

  /** What `socket.gethostbyname` of the fake domain does: return an address,
      raise `socket.gaierror`, or raise any other exception. */
  datatype HostLookup = Resolved(ip: string) | GaiError | OtherException(error: string)

  /** The lines a test logs, and the exception that escapes it, if any. */
  datatype Outcome = Outcome(lines: seq<string>, uncaught: Option<string>)

  const FakeDomain := "fake.testdomain"
  const HijackHeader := "🤪 Testing DNS Hijacking..."
  const NoHijackLine := "✅ DNS Hijacking does not seem to be active."

  /** `test_dns_hijacking`: only `gaierror` is caught. */
  function HijackingTest(lookup: HostLookup): Outcome {
    match lookup
    case Resolved(ip) => Outcome([HijackHeader, "⚠ Unexpected response for fake domain: " + ip], None)
    case GaiError => Outcome([HijackHeader, NoHijackLine], None)
    case OtherException(e) => Outcome([HijackHeader], Some(e))
  }

  // ------------------------------------------------------------------
  // Advanced hijacking test

  const TestDomain := "test.nonexistentdomain1234.com"
  const AdvancedHeader := "🧠 Advanced DNS Hijacking Test using multiple DNS resolvers..."

  /** A resolver's output is flagged when it names a host and an address. */
  predicate Flagged(output: string) {
    Contains(output, "Name:") && Contains(output, "Address:")
  }

  /** The line for a resolver whose `nslookup` ran; `output` is stripped. */
  function VerdictLine(name: string, output: string): string {
    if Flagged(output) then "⚠ Possible Hijacking from " + name + " DNS:\n" + output
    else "✅ " + name + " DNS did not return a result — good sign."
  }

  function GeneralError(e: string): string {
    "⚠ General error during advanced Hijacking test: " + e
  }

  /** The lines of the resolvers `rs` in turn. The whole loop sits inside one
      `try`, so the first exception logs one general error and ends it. */
  function AdvancedBody(nslookup: string -> CmdResult, rs: seq<(string, string)>): seq<string>
    decreases |rs|
  {
    if rs == [] then []
    else match nslookup(rs[0].1)
      case Raised(e) => [GeneralError(e)]
      case Ran(out) => [VerdictLine(rs[0].0, Strip(out))] + AdvancedBody(nslookup, rs[1..])
  }

  /** `test_dns_hijacking_advanced`, over the resolvers Google, Cloudflare
      and OpenDNS in that order; `nslookup` maps a resolver address to the
      run for the test domain. */
  function AdvancedLines(nslookup: string -> CmdResult): seq<string> {
    [AdvancedHeader] + AdvancedBody(nslookup, SecurityTester.Resolvers)
  }

  /** `test_dns_hijacking_advanced`. */
  method HijackingAdvanced(nslookup: string -> CmdResult) returns (lines: seq<string>)
    ensures lines == AdvancedLines(nslookup)
  {
    var body := ResolverLoop(nslookup, SecurityTester.Resolvers);
    lines := [AdvancedHeader] + body;
  }

  /** The line one resolver's run logs: its verdict, or the general error. */
  function StepLine(nslookup: string -> CmdResult, r: (string, string)): string {
    match nslookup(r.1)
    case Raised(e) => GeneralError(e)
    case Ran(out) => VerdictLine(r.0, Strip(out))
  }

  /** One step of the loop: the first resolver's line, then either the end
      or the rest. */
  lemma AdvancedBodyHead(nslookup: string -> CmdResult, rs: seq<(string, string)>)
    requires rs != []
    ensures AdvancedBody(nslookup, rs)
            == if nslookup(rs[0].1).Raised? then [StepLine(nslookup, rs[0])]
               else [StepLine(nslookup, rs[0])] + AdvancedBody(nslookup, rs[1..])
  {
  }

  /** The resolver loop, stopping at the first exception. */
  method ResolverLoop(nslookup: string -> CmdResult, rs: seq<(string, string)>) returns (body: seq<string>)
    ensures body == AdvancedBody(nslookup, rs)
  {
    body := [];
    var aborted := false;
    var k := 0;
    while k < |rs| && !aborted
      invariant 0 <= k <= |rs|
      invariant !aborted ==> body + AdvancedBody(nslookup, rs[k..]) == AdvancedBody(nslookup, rs)
      invariant aborted ==> body == AdvancedBody(nslookup, rs)
      decreases |rs| - k, if aborted then 0 else 1
    {
      body, k, aborted := AskResolver(nslookup, rs, k, body);
    }
  }

  /** One turn of the resolver loop: log the resolver's line, then go on to
      the next resolver or stop. */
  method AskResolver(nslookup: string -> CmdResult, rs: seq<(string, string)>, k: nat, body: seq<string>)
    returns (body': seq<string>, k': nat, stop: bool)
    requires k < |rs|
    requires body + AdvancedBody(nslookup, rs[k..]) == AdvancedBody(nslookup, rs)
    ensures k' == k + 1
    ensures stop ==> body' == AdvancedBody(nslookup, rs)
    ensures !stop ==> body' + AdvancedBody(nslookup, rs[k'..]) == AdvancedBody(nslookup, rs)
  {
    var line := StepLine(nslookup, rs[k]);
    AdvancedBodyHead(nslookup, rs[k..]);
    assert rs[k..][0] == rs[k] && rs[k..][1..] == rs[k + 1..];
    body' := body + [line];
    k' := k + 1;
    stop := nslookup(rs[k].1).Raised?;
    if !stop {
      var rest := AdvancedBody(nslookup, rs[k + 1..]);
      assert body + ([line] + rest) == body' + rest;
    }
  }

  // ------------------------------------------------------------------
  // Leak tests

  const LeakHeader := "🔍 Testing DNS Leak..."
  const ValidDohLine := "✅ Valid DNS response received from Cloudflare DoH."
  const PossibleLeakLine := "⚠ Possible DNS Leak detected."
  const LeakUntestedLine := "⚠ Unable to test for DNS Leak — request failed."

  /** `test_dns_leak`. */
  function LeakLines(reply: HttpReply): seq<string> {
    [LeakHeader]
    + match reply
      case Status(code) => [if code == 200 then ValidDohLine else PossibleLeakLine]
      case RequestFailed(_) => [LeakUntestedLine]
  }

  /** The reply of dnsleaktest.com: its status and the `dns_servers` list of
      its JSON (empty when the key is missing), or the message of the
      exception the request or the decoding raised. */
  datatype LeakReply = LeakResponse(status: int, servers: seq<Responder>) | LeakError(error: string)

  const AdvancedLeakHeader := "🔬 Advanced DNS Leak Test via dnsleaktest.com..."
  const NoServersLine := "⚠ No DNS servers were detected."
  const NoLeakDataLine := "⚠ Unable to fetch leak test data."

  function ResponderLine(s: Responder): string {
    "🔎 DNS Responder: " + GetOr(s.ip, "Unknown") + " (" + GetOr(s.country, "N/A") + ")"
  }

  /** `test_dns_leak_advanced`. */
  function AdvancedLeakLines(reply: LeakReply): seq<string> {
    [AdvancedLeakHeader]
    + match reply
      case LeakResponse(status, servers) =>
        if status != 200 then [NoLeakDataLine]
        else if servers == [] then [NoServersLine]
        else Map(servers, ResponderLine)
      case LeakError(e) => ["⚠ Error during DNS Leak check: " + e]
  }

  /** The responder loop of `test_dns_leak_advanced`. */
  method LeakAdvanced(reply: LeakReply) returns (lines: seq<string>)
    ensures lines == AdvancedLeakLines(reply)
  {
    lines := [AdvancedLeakHeader];
    match reply {
      case LeakError(e) =>
        lines := lines + ["⚠ Error during DNS Leak check: " + e];
      case LeakResponse(status, servers) =>
        if status != 200 {
          lines := lines + [NoLeakDataLine];
        } else if servers == [] {
          lines := lines + [NoServersLine];
        } else {
          var body := [];
          for k := 0 to |servers|
            invariant body == Map(servers[..k], ResponderLine)
          {
            MapSnoc(servers[..k], servers[k], ResponderLine);
            assert servers[..k + 1] == servers[..k] + [servers[k]];
            body := body + [ResponderLine(servers[k])];
          }
          assert servers[..|servers|] == servers;
          lines := lines + body;
        }
    }
  }

  // ------------------------------------------------------------------
  // Properties

  /** A lookup that succeeds is reported as unexpected, only `gaierror` gives
      the safe line, and any other exception escapes with nothing logged
      after the header. */
  lemma HijackingOutcomes(lookup: HostLookup)
    ensures HijackingTest(lookup).lines[0] == HijackHeader
    ensures HijackingTest(lookup).uncaught.None? <==> !lookup.OtherException?
    ensures HijackingTest(lookup).lines == [HijackHeader, NoHijackLine] <==> lookup == GaiError
    ensures lookup.OtherException? ==> HijackingTest(lookup).lines == [HijackHeader]
  {
    if lookup.Resolved? {
      assert HijackingTest(lookup).lines[1][0] == '⚠';
    }
  }

  /** The flagged line is the one that starts with the hijacking warning. */
  predicate Warns(line: string) {
    IsPrefix("⚠ Possible Hijacking from ", line)
  }

  /** A resolver is flagged exactly when its output holds both `Name:` and
      `Address:`. */
  lemma FlaggedIffBoth(name: string, output: string)
    ensures Warns(VerdictLine(name, output)) <==> Contains(output, "Name:") && Contains(output, "Address:")
  {
    if !Flagged(output) {
      assert VerdictLine(name, output)[0] == '✅';
    }
  }

  /** With no exception, every resolver gets its verdict line, in order. */
  lemma {:induction false} AllResolversChecked(nslookup: string -> CmdResult, rs: seq<(string, string)>)
    requires forall i :: 0 <= i < |rs| ==> nslookup(rs[i].1).Ran?
    ensures |AdvancedBody(nslookup, rs)| == |rs|
    ensures forall i :: 0 <= i < |rs| ==>
              AdvancedBody(nslookup, rs)[i] == VerdictLine(rs[i].0, Strip(nslookup(rs[i].1).stdout))
    decreases |rs|
  {
    if rs != [] {
      var rest := AdvancedBody(nslookup, rs[1..]);
      AllResolversChecked(nslookup, rs[1..]);
      assert AdvancedBody(nslookup, rs) == [VerdictLine(rs[0].0, Strip(nslookup(rs[0].1).stdout))] + rest;
    }
  }

  /** The first exception ends the test: the lines after it are one general
      error, and the resolvers after it are never asked, so their answers do
      not matter. */
  lemma {:induction false} FirstErrorAborts(ns: string -> CmdResult, other: string -> CmdResult, rs: seq<(string, string)>, j: nat)
    requires j < |rs|
    requires forall i :: 0 <= i <= j ==> ns(rs[i].1) == other(rs[i].1)
    requires forall i :: 0 <= i < j ==> ns(rs[i].1).Ran?
    requires ns(rs[j].1).Raised?
    ensures AdvancedBody(ns, rs) == AdvancedBody(other, rs)
    ensures |AdvancedBody(ns, rs)| == j + 1
    ensures AdvancedBody(ns, rs)[j] == GeneralError(ns(rs[j].1).error)
    decreases j
  {
    if j > 0 {
      FirstErrorAborts(ns, other, rs[1..], j - 1);
    }
  }

  /** Status 200 is a valid answer, any other status a possible leak, and an
      exception leaves the leak untested. */
  lemma LeakVerdict(reply: HttpReply)
    ensures |LeakLines(reply)| == 2
    ensures LeakLines(reply)[1] == ValidDohLine <==> reply == Status(200)
    ensures LeakLines(reply)[1] == LeakUntestedLine <==> reply.RequestFailed?
  {
    assert ValidDohLine != PossibleLeakLine && ValidDohLine != LeakUntestedLine;
    assert PossibleLeakLine != LeakUntestedLine;
  }

  /** A 200 reply with servers gives one responder line per server, in
      order, with "Unknown" and "N/A" for a missing address or country. */
  lemma ResponderLines(servers: seq<Responder>)
    requires servers != []
    ensures var lines := AdvancedLeakLines(LeakResponse(200, servers));
            |lines| == 1 + |servers|
            && forall i :: 0 <= i < |servers| ==> lines[1 + i] == ResponderLine(servers[i])
  {
  }

  /** A server entry without `ip` or `country_name` is shown with the
      defaults. */
  lemma ResponderDefaults()
    ensures ResponderLine(Responder(None, None)) == "🔎 DNS Responder: Unknown (N/A)"
  {
  }
}
