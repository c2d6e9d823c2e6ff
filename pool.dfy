/** The DNS-backed address pool: a cache from "host:port" to resolved TCP
    addresses, filled on a miss by resolving the host against a name server. */
module Godns {
  import opened DnsTypes
  import opened Resolver

  /** Google's public resolver on the DNS port. */
  const DefaultNameServer: string := "8.8.8.8:53"

  /** One second as a duration in nanoseconds. */
  const Second: int := 1_000_000_000

  /** The address a hit returns: the only one, the first when randomisation is
      off, otherwise the one a random draw picks (rand.Intn is the draw reduced
      into [0, |entry|)). */
  function Select(entry: seq<TcpAddr>, randomize: bool, pick: nat): (a: TcpAddr)
    requires entry != []
    ensures a in entry
    ensures |entry| == 1 || !randomize ==> a == entry[0]
  {
    if |entry| == 1 then entry[0]
    else if randomize then entry[pick % |entry|]
    else entry[0]
  }

  /** With randomisation on, every cached address can be the one returned. */
  lemma SelectReachesEvery(entry: seq<TcpAddr>, i: nat)
    requires i < |entry|
    ensures exists pick: nat :: Select(entry, true, pick) == entry[i]
  {
    assert Select(entry, true, i) == entry[i];
  }

  /** The cache only grows: no key disappears and no entry is shortened or changed. */
  ghost predicate Grows(before: map<string, seq<TcpAddr>>, after: map<string, seq<TcpAddr>>)
  {
    forall key :: key in before ==> key in after && before[key] <= after[key]
  }

  /** Appends the A and AAAA addresses of an answer section, in answer order,
      skipping every other record type. */
  method AppendAddresses(addrs: seq<IP>, answers: seq<Answer>) returns (out: seq<IP>)
    ensures out == addrs + Addresses(answers)
  {
    out := addrs;
    var j := 0;
    while j < |answers|
      invariant 0 <= j <= |answers|
      invariant out == addrs + Addresses(answers[..j])
    {
      AddressesPrefix(answers, j);
      var rr := answers[j];
      if rr.A? {
        out := out + [rr.a];
      }
      if rr.AAAA? {
        out := out + [rr.aaaa];
      }
      j := j + 1;
    }
    assert answers[..j] == answers;
  }

  class Pool {
    var nameServer: string
    var randomize: bool
    var records: map<string, seq<TcpAddr>>
    var timeout: int
    var stepTimeout: int
    var retryWait: int

    /** Every cached entry holds at least one address. */
    ghost predicate Valid()
      reads this
    {
      forall key :: key in records ==> records[key] != []
    }

    /** Every cached entry holds exactly one address: a miss stores one and a
        hit stores nothing, so sequential lookups keep it so. */
    ghost predicate Single()
      reads this
    {
      forall key :: key in records ==> |records[key]| == 1
    }

    /** The settings the resolver reads. */
    function Settings(): Budget
      reads this
    {
      Budget(timeout, retryWait)
    }

    /** An empty pool with the default settings. */
    constructor New()
      ensures Valid() && Single()
      ensures records == map[]
      ensures nameServer == DefaultNameServer && randomize
      ensures timeout == 5 * Second && stepTimeout == 2 * Second && retryWait == 2 * Second
    {
      nameServer := DefaultNameServer;
      randomize := true;
      timeout := 5 * Second;
      stepTimeout := 2 * Second;
      retryWait := 2 * Second;
      records := map[];
    }

    /** Resolves name against nameserver. The i-th exchange with the server
        yields script[i]; besides the addresses, elapsed duration and error the
        method reports how many exchanges it made and the delays it slept. */
    method ResolveName(name: string, nameserver: string, script: seq<Outcome>)
      returns (addrs: seq<IP>, dur: int, err: Option<Error>, attempts: nat, sleeps: seq<int>)
      ensures Resolution(addrs, dur, err, attempts, sleeps) == Resolve(Settings(), name, nameserver, script)
      ensures attempts <= |script| && dur == SumRtt(script[..attempts])
      ensures err.Some? ==> addrs == []
      ensures err.None? ==> addrs == Collected(script[..attempts])
      ensures forall j :: 0 <= j < |sleeps| ==> sleeps[j] == retryWait * Pow2(j)
    {
      var cfg := Settings();
      addrs := [];
      var wait := retryWait;
      dur, err, attempts, sleeps := 0, None, 0, [];
      while true
        invariant attempts <= |script|
        invariant Run(cfg, name, nameserver, script, attempts, dur, wait, addrs, sleeps)
               == Resolve(cfg, name, nameserver, script)
        decreases |script| - attempts
      {
        if attempts == |script| {
          addrs, err := [], Some(Unfinished);
          break;
        }
        var reply := script[attempts];
        attempts := attempts + 1;
        dur := dur + reply.rtt;
        if reply.TempErr? {
          if dur + wait < timeout {
            sleeps := sleeps + [wait];
            wait := wait * 2;
            continue;
          }
          addrs, err := [], Some(Transport(true));
          break;
        }
        if reply.PermErr? {
          addrs, err := [], Some(Transport(false));
          break;
        }
        if reply.rcode != RcodeSuccess {
          addrs, err := [], Some(ServerError(name, nameserver, reply.rcode));
          break;
        }
        addrs := AppendAddresses(addrs, reply.answers);
        if !reply.truncated {
          break;
        }
      }
      ResolveDuration(cfg, name, nameserver, script);
      ErrorsStop(cfg, name, nameserver, script);
      SuccessCollectsAll(cfg, name, nameserver, script);
      ResolveBackoff(cfg, name, nameserver, script);
    }

    /** Returns the first or a random address cached for hostport, resolving
        the host on a miss. splitHostPort and atoi stand for the library's
        host:port split and integer parse (whose error is ignored); script is
        what the name server's exchanges would yield; pick and ipPick are the
        random draws. queries counts the exchanges made. */
    method Get(hostport: string, splitHostPort: string -> Option<(string, string)>, atoi: string -> int,
               script: seq<Outcome>, pick: nat, ipPick: nat)
      returns (r: Result<TcpAddr, Error>, queries: nat)
      requires Valid()
      modifies this`records
      ensures Valid() && Grows(old(records), records)
      ensures old(Single()) ==> Single()
      ensures old(Single()) && r.Success? ==> hostport in records && r.value == records[hostport][0]
      ensures splitHostPort(hostport).None? ==>
        r == Failure(MalformedTarget) && queries == 0 && records == old(records)
      ensures splitHostPort(hostport).Some? && hostport in old(records) ==>
        r == Success(Select(old(records)[hostport], randomize, pick)) && queries == 0 && records == old(records)
      ensures splitHostPort(hostport).Some? && hostport !in old(records) ==>
        var res := Resolve(Settings(), splitHostPort(hostport).value.0, nameServer, script);
        && queries == res.attempts
        && (res.err.Some? ==> r == Failure(res.err.value) && records == old(records))
        && (res.err.None? && res.addrs == [] ==> r == Failure(EmptyIPs) && records == old(records))
        && (res.err.None? && res.addrs != [] ==>
              && r.Success?
              && r.value.ip in res.addrs
              && r.value.port == atoi(splitHostPort(hostport).value.1)
              && r.value == TcpAddr(res.addrs[ipPick % |res.addrs|], r.value.port)
              && records == old(records)[hostport := [r.value]])
      decreases if hostport in records then 0 else 1
    {
      var parsed := splitHostPort(hostport);
      if parsed.None? {
        return Failure(MalformedTarget), 0;
      }
      var (host, port) := parsed.value;
      if hostport in records {
        var value := records[hostport];
        if |value| == 1 {
          return Success(value[0]), 0;
        }
        if randomize {
          return Success(value[pick % |value|]), 0;
        }
        return Success(value[0]), 0;
      }
      var ips, _, err, attempts, _ := ResolveName(host, nameServer, script);
      if err.Some? {
        return Failure(err.value), attempts;
      }
      if |ips| == 0 {
        return Failure(EmptyIPs), attempts;
      }
      var po := atoi(port);
      // The key is absent, so appending to its (nil) entry gives a one-element entry.
      records := records[hostport := [TcpAddr(ips[ipPick % |ips|], po)]];
      var again;
      r, again := Get(hostport, splitHostPort, atoi, script, pick, ipPick);
      queries := attempts + again;
    }
  }

  /** A second lookup of a key the first lookup served makes no exchange and
      returns a cached address; without randomisation it returns the same one. */
  method LookupTwice(p: Pool, hostport: string, splitHostPort: string -> Option<(string, string)>,
                     atoi: string -> int, script: seq<Outcome>, pick: nat, ipPick: nat, pick2: nat)
    returns (first: Result<TcpAddr, Error>, second: Result<TcpAddr, Error>, queries: nat)
    requires p.Valid()
    modifies p`records
    ensures p.Valid() && Grows(old(p.records), p.records)
    ensures first.Success? ==>
      && queries == 0
      && second.Success?
      && hostport in p.records
      && second.value in p.records[hostport]
      && (!p.randomize ==> second == first)
    ensures old(p.Single()) && first.Success? ==> second == first
  {
    var q1;
    first, q1 := p.Get(hostport, splitHostPort, atoi, script, pick, ipPick);
    second, queries := p.Get(hostport, splitHostPort, atoi, script, pick2, ipPick);
  }
}
