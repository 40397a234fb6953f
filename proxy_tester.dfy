/** `test_transparent_proxy` and `test_proxy_headers`: which of the request
    headers that httpbin.org echoes back point to a proxy. The `Via` header is
    the one of section 7.6.3 of RFC 9110 and `Forwarded` the one of section 4
    of RFC 7239. Header names are matched exactly, case included, as keys of
    the decoded JSON object. */
module ProxyTester {

  import opened Base
  import opened Strings
  import opened Seqs

  /** The echoed headers, or the message of the exception the request or the
      JSON decoding raised. */
  datatype HeadersFetch = Headers(headers: map<string, string>) | FetchFailed(error: string)

  function Get(headers: map<string, string>, h: string): Option<string> {
    if h in headers then Some(headers[h]) else None
  }

  // ------------------------------------------------------------------
  // Transparent proxy

  const TransparentHeader := "🕵 Checking for transparent proxy..."
  const NoTransparentLine := "✅ No transparent proxy detected."

  predicate TransparentProxy(headers: map<string, string>) {
    "Via" in headers || "X-Forwarded-For" in headers
  }

  function TransparentProxyLines(fetch: HeadersFetch): seq<string> {
    [TransparentHeader]
    + match fetch
      case Headers(h) =>
        if TransparentProxy(h) then
          ["⚠ Transparent proxy detected: " + OrNone(Get(h, "Via")) + ", " + OrNone(Get(h, "X-Forwarded-For"))]
        else [NoTransparentLine]
      case FetchFailed(e) => ["[!] Error during transparent proxy check: " + e]
  }

  // ------------------------------------------------------------------
  // Proxy headers

  const ProxyHeaders: seq<string> := ["X-Real-IP", "X-Forwarded-Proto", "Forwarded", "Client-IP"]

  function Entry(headers: map<string, string>, h: string): string {
    h + ": " + (if h in headers then headers[h] else "")
  }

  /** The entry one header name contributes to `suspicious`, if present. */
  function SuspiciousEntry(headers: map<string, string>, h: string): seq<string> {
    if h in headers then [Entry(headers, h)] else []
  }

  /** `[f"{h}: {headers[h]}" for h in proxy_headers if h in headers]`. */
  function Suspicious(headers: map<string, string>): seq<string> {
    FlatMap(ProxyHeaders, h => SuspiciousEntry(headers, h))
  }

  const InspectionHeader := "📡 Full proxy headers inspection..."
  const SuspiciousLine := "⚠ Suspicious proxy-related headers detected:"
  const NoSuspiciousLine := "✅ No suspicious proxy headers found."

  function ProxyHeaderLines(fetch: HeadersFetch): seq<string> {
    [InspectionHeader]
    + match fetch
      case Headers(h) =>
        var suspicious := Suspicious(h);
        if suspicious != [] then [SuspiciousLine] + Map(suspicious, s => "   → " + s)
        else [NoSuspiciousLine]
      case FetchFailed(e) => ["⚠ Error while inspecting headers: " + e]
  }

  // ------------------------------------------------------------------
  // Properties

  /** A transparent proxy is reported exactly when `Via` or `X-Forwarded-For`
      is among the headers. */
  lemma TransparentVerdict(headers: map<string, string>)
    ensures var lines := TransparentProxyLines(Headers(headers));
            |lines| == 2 && lines[0] == TransparentHeader
            && (lines[1] == NoTransparentLine <==> "Via" !in headers && "X-Forwarded-For" !in headers)
  {
    var lines := TransparentProxyLines(Headers(headers));
    if TransparentProxy(headers) {
      assert lines[1][0] == '⚠';
    }
  }

  /** `suspicious` holds one `name: value` entry per listed header that is
      present, in list order. */
  lemma SuspiciousEntries(headers: map<string, string>)
    ensures Suspicious(headers) == Map(Filter(ProxyHeaders, h => h in headers), h => Entry(headers, h))
  {
    FlatMapOfOptional(ProxyHeaders, h => SuspiciousEntry(headers, h), h => h in headers, h => Entry(headers, h));
  }

  /** Nothing is suspicious exactly when none of the listed headers is
      present. */
  lemma NothingSuspicious(headers: map<string, string>)
    ensures Suspicious(headers) == [] <==> forall i :: 0 <= i < |ProxyHeaders| ==> ProxyHeaders[i] !in headers
  {
    FlatMapEmpty(ProxyHeaders, h => SuspiciousEntry(headers, h));
  }

  /** Either the warning and one line per entry, or the single clean line,
      follow the header. */
  lemma ProxyHeaderLinesShape(headers: map<string, string>)
    ensures var lines := ProxyHeaderLines(Headers(headers));
            var suspicious := Suspicious(headers);
            lines[0] == InspectionHeader
            && (suspicious != [] ==>
                  (|lines| == 2 + |suspicious| && lines[1] == SuspiciousLine
                   && forall i :: 0 <= i < |suspicious| ==> lines[2 + i] == "   → " + suspicious[i]))
            && (suspicious == [] ==> lines == [InspectionHeader, NoSuspiciousLine])
  {
  }

  /** The match is case-sensitive: a lower-case `x-real-ip` is not the
      `X-Real-IP` header. */
  lemma CaseSensitiveNames()
    ensures Suspicious(map["x-real-ip" := "10.0.0.1"]) == []
  {
    var headers := map["x-real-ip" := "10.0.0.1"];
    assert forall i :: 0 <= i < |ProxyHeaders| ==> ProxyHeaders[i][0] != 'x';
    NothingSuspicious(headers);
  }
}
