/** The status summary: internet reachability, IPv6 name resolution and a
    check of the address `example.com` resolves to. */
module NetworkStatus {

  import opened Base
  import opened Strings

  /** The outcome of `socket.getaddrinfo`: its entries, or an exception. */
  datatype AddrLookup = Entries(entries: seq<string>) | LookupRaised

  /** What the summary reads: whether a TCP connection to 8.8.8.8 port 53
      opened, the IPv6 lookup of ipv6.google.com, and the resolution of
      example.com (any resolver exception is `OtherError`, NXDOMAIN included). */
  datatype Env = Env(connected: bool, ipv6Lookup: AddrLookup, exampleLookup: DnsLookup)

  /** `check_internet`. */
  function CheckInternet(env: Env): (s: string)
    ensures s == "Connected" || s == "Disconnected"
  {
    if env.connected then "Connected" else "Disconnected"
  }

  /** `check_ipv6`. */
  function CheckIpv6(env: Env): bool {
    match env.ipv6Lookup
    case Entries(entries) => |entries| > 0
    case LookupRaised => false
  }

  const ExpectedAddress := "93.184.216.34"

  /** The record loop: true at the first record that does not mention the
      expected address. */
  function AnyForeign(records: seq<string>): bool
    decreases |records|
  {
    if records == [] then false
    else if !Contains(records[0], ExpectedAddress) then true
    else AnyForeign(records[1..])
  }

  /** `detect_dns_hijack`: false on any exception. */
  function DetectDnsHijack(env: Env): bool {
    match env.exampleLookup
    case Answer(records) => AnyForeign(records)
    case _ => false
  }

  /** `get_status_summary`: one field per key of the dictionary. */
  datatype Summary = Summary(internet: string, ipv6: bool, dnsHijack: bool)

  function StatusSummary(env: Env): Summary {
    Summary(CheckInternet(env), CheckIpv6(env), DetectDnsHijack(env))
  }

  // ------------------------------------------------------------------
  // Properties

  /** The early-return loop is an existence test. */
  lemma {:induction false} AnyForeignExists(records: seq<string>)
    ensures AnyForeign(records) <==> exists i :: 0 <= i < |records| && !Contains(records[i], ExpectedAddress)
    decreases |records|
  {
    if records != [] {
      AnyForeignExists(records[1..]);
      if !Contains(records[0], ExpectedAddress) {
        assert !Contains(records[0], ExpectedAddress);
      } else {
        assert forall i :: 1 <= i < |records| ==> records[i] == records[1..][i - 1];
      }
    }
  }

  /** Hijacking is reported exactly when some answer record lacks the
      expected address; all-matching answers, empty answers and errors all
      read as safe. */
  lemma HijackVerdict(env: Env)
    ensures DetectDnsHijack(env)
            <==> env.exampleLookup.Answer?
                 && exists i :: 0 <= i < |env.exampleLookup.records|
                                && !Contains(env.exampleLookup.records[i], ExpectedAddress)
    ensures !env.exampleLookup.Answer? ==> !DetectDnsHijack(env)
  {
    if env.exampleLookup.Answer? {
      AnyForeignExists(env.exampleLookup.records);
    }
  }

  /** IPv6 is reported exactly when the lookup returned some entry. */
  lemma Ipv6Verdict(env: Env)
    ensures CheckIpv6(env) <==> env.ipv6Lookup.Entries? && env.ipv6Lookup.entries != []
  {
  }

  /** Each field of the summary is the check of that name. */
  lemma SummaryFields(env: Env)
    ensures StatusSummary(env).internet == "Connected" <==> env.connected
    ensures StatusSummary(env).ipv6 == CheckIpv6(env)
    ensures StatusSummary(env).dnsHijack == DetectDnsHijack(env)
  {
  }
}
