/** Values shared by the resolver and the address pool. */
module DnsTypes {

  datatype Option<+T> = None | Some(value: T)

  datatype Result<+T, +E> = Success(value: T) | Failure(error: E)

  /** An IP address as its bytes (4 for IPv4, 16 for IPv6). */
  type IP = seq<bv8>

  /** One record of a reply's answer section: only A and AAAA records carry an address. */
  datatype Answer =
    | A(a: IP)
    | AAAA(aaaa: IP)
    | OtherRecord(rrtype: nat)

  /** The response code of a successful DNS reply. */
  const RcodeSuccess: int := 0

  /** What one call of the DNS client's exchange produced, with its round-trip time.
      A transport error is either temporary (a net.Error whose Temporary() holds)
      or not; a reply carries its response code, answer section and truncation bit. */
  datatype Outcome =
    | TempErr(rtt: nat)
    | PermErr(rtt: nat)
    | Reply(rtt: nat, rcode: int, answers: seq<Answer>, truncated: bool)

  datatype Error =
    | MalformedTarget                  // the host:port split failed
    | EmptyIPs                         // resolution succeeded with no address
    | Transport(temporary: bool)       // the exchange failed
    | ServerError(name: string, nameserver: string, rcode: int)
    | Unfinished                       // the resolver would call exchange more often than observed

  /** A TCP address: an IP and the port parsed from the lookup key. */
  datatype TcpAddr = TcpAddr(ip: IP, port: int)

  /** The pool settings the resolver reads, as durations in nanoseconds. */
  datatype Budget = Budget(timeout: int, retryWait: int)

  /** Everything one resolution yields: the addresses, the summed round-trip times,
      the error, how many exchanges were made and the delays slept between them. */
  datatype Resolution = Resolution(addrs: seq<IP>, dur: int, err: Option<Error>,
                                   attempts: nat, sleeps: seq<int>)
}
