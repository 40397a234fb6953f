/** Values that stand for what the operating system and the network hand back
    to the probes. The probes never perform these effects in the model: each
    outcome is an input. */
module Base {

  datatype Option<+T> = None | Some(value: T)

  /** The outcome of `subprocess.run(..., capture_output=True, text=True)`
      when only its standard output matters: the text, or the message of the
      exception it raised (tool missing, timeout, ...). */
  datatype CmdResult = Ran(stdout: string) | Raised(error: string)

  /** The outcome of `subprocess.run(...)` when its return code is inspected. */
  datatype ProcResult = Completed(returncode: int, out: string) | Failed(reason: string)

  /** The outcome of a DNS query made with dnspython: the answer's records as
      text, the NXDOMAIN exception (RCODE 3 of section 4.1.1 of RFC 1035), or
      any other exception. */
  datatype DnsLookup = Answer(records: seq<string>) | NXDomain | OtherError(message: string)

  /** One entry of the `dns_servers` list dnsleaktest.com returns: its `ip`
      and `country_name` fields, when present. */
  datatype Responder = Responder(ip: Option<string>, country: Option<string>)

  /** `d.get(key, default)` for a field that is a string when present. */
  function GetOr(v: Option<string>, default: string): string {
    if v.Some? then v.value else default
  }

  /** An HTTP reply's status code, or the message of the exception
      `requests.get` raised. */
  datatype HttpReply = Status(code: int) | RequestFailed(error: string)
}
