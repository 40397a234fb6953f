/** `detect_dns_hijacking`: a query for a name that must not exist, read as
    hijacked, safe or unknown. */
module Network {

  import opened Base

  /** A name reserved never to resolve (section 6.4 of RFC 6761). */
  const DefaultFakeDomain := "example.invalid"
  const DefaultDnsServer := "8.8.8.8"

  /** The hijack verdict for the outcome of querying `fakeDomain` at
      `dnsServer`; `resolve` gives the outcome of each such query. `None` is
      the error case. */
  function DetectDnsHijacking(resolve: (string, string) -> DnsLookup, fakeDomain: string, dnsServer: string): (r: Option<bool>)
  {
    match resolve(fakeDomain, dnsServer)
    case Answer(_) => Some(true)
    case NXDomain => Some(false)
    case OtherError(_) => None
  }

  /** The call with its default arguments. */
  function DetectDefault(resolve: (string, string) -> DnsLookup): Option<bool> {
    DetectDnsHijacking(resolve, DefaultFakeDomain, DefaultDnsServer)
  }

  /** Any answer at all means hijacking, only NXDOMAIN means safe, and every
      other failure is reported as unknown, never as safe. */
  lemma TriState(resolve: (string, string) -> DnsLookup, fakeDomain: string, dnsServer: string)
    ensures DetectDnsHijacking(resolve, fakeDomain, dnsServer) == Some(true)
            <==> resolve(fakeDomain, dnsServer).Answer?
    ensures DetectDnsHijacking(resolve, fakeDomain, dnsServer) == Some(false)
            <==> resolve(fakeDomain, dnsServer) == NXDomain
    ensures DetectDnsHijacking(resolve, fakeDomain, dnsServer) == None
            <==> resolve(fakeDomain, dnsServer).OtherError?
  {
  }

  /** Only the one query, for the fake domain at the one server, is made:
      two resolvers that agree on it give the same verdict. */
  lemma SingleQuery(resolve: (string, string) -> DnsLookup, other: (string, string) -> DnsLookup, fakeDomain: string, dnsServer: string)
    requires resolve(fakeDomain, dnsServer) == other(fakeDomain, dnsServer)
    ensures DetectDnsHijacking(resolve, fakeDomain, dnsServer) == DetectDnsHijacking(other, fakeDomain, dnsServer)
  {
  }

  /** By default "example.invalid" is asked of 8.8.8.8 alone. */
  lemma DefaultQuery(resolve: (string, string) -> DnsLookup, other: (string, string) -> DnsLookup)
    requires resolve("example.invalid", "8.8.8.8") == other("example.invalid", "8.8.8.8")
    ensures DetectDefault(resolve) == DetectDefault(other)
  {
    SingleQuery(resolve, other, DefaultFakeDomain, DefaultDnsServer);
  }
}
