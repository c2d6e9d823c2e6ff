/** The retry, backoff and truncation state machine of Pool.ResolveName as
    functions over a scripted sequence of exchange outcomes, and what it promises. */
module Resolver {
  import opened DnsTypes

  function Pow2(n: nat): (r: nat)
    ensures r >= 1
  {
    if n == 0 then 1 else 2 * Pow2(n - 1)
  }

  /** The address an answer record contributes: one for A and AAAA, none otherwise. */
  function AddressOf(rr: Answer): seq<IP>
  {
    match rr
    case A(ip) => [ip]
    case AAAA(ip) => [ip]
    case OtherRecord(_) => []
  }

  /** The A and AAAA addresses of an answer section, in answer order. */
  function Addresses(answers: seq<Answer>): (r: seq<IP>)
    ensures |r| <= |answers|
  {
    if answers == [] then []
    else Addresses(answers[..|answers| - 1]) + AddressOf(answers[|answers| - 1])
  }

  /** The sum of the round-trip times of a sequence of attempts. */
  function SumRtt(attempts: seq<Outcome>): int
  {
    if attempts == [] then 0
    else SumRtt(attempts[..|attempts| - 1]) + attempts[|attempts| - 1].rtt
  }

  /** How many of the attempts ended in a temporary transport error. */
  function Transients(attempts: seq<Outcome>): nat
  {
    if attempts == [] then 0
    else Transients(attempts[..|attempts| - 1]) + (if attempts[|attempts| - 1].TempErr? then 1 else 0)
  }

  /** The addresses of every reply among the attempts, in attempt order. */
  function Collected(attempts: seq<Outcome>): seq<IP>
  {
    if attempts == [] then []
    else
      var last := attempts[|attempts| - 1];
      Collected(attempts[..|attempts| - 1]) + (if last.Reply? then Addresses(last.answers) else [])
  }

  /** The first n backoff delays: the initial wait, doubled after each retry. */
  function Backoff(initial: int, n: nat): seq<int>
  {
    if n == 0 then [] else Backoff(initial, n - 1) + [initial * Pow2(n - 1)]
  }

  /** The resolver loop from attempt k on, with the elapsed time, current backoff
      delay, collected addresses and sleeps so far. Running off the end of the
      script means the source would call exchange again: Unfinished. */
  function Run(cfg: Budget, name: string, nameserver: string, script: seq<Outcome>,
               k: nat, dur: int, wait: int, addrs: seq<IP>, sleeps: seq<int>): (r: Resolution)
    requires k <= |script|
    ensures k <= r.attempts <= |script|
    ensures r.err.Some? ==> r.addrs == []
    decreases |script| - k
  {
    if k == |script| then Resolution([], dur, Some(Unfinished), k, sleeps)
    else
      var d := dur + script[k].rtt;
      match script[k]
      case TempErr(_) =>
        if d + wait < cfg.timeout then
          Run(cfg, name, nameserver, script, k + 1, d, wait * 2, addrs, sleeps + [wait])
        else Resolution([], d, Some(Transport(true)), k + 1, sleeps)
      case PermErr(_) => Resolution([], d, Some(Transport(false)), k + 1, sleeps)
      case Reply(_, rcode, answers, truncated) =>
        if rcode != RcodeSuccess then
          Resolution([], d, Some(ServerError(name, nameserver, rcode)), k + 1, sleeps)
        else if truncated then
          Run(cfg, name, nameserver, script, k + 1, d, wait, addrs + Addresses(answers), sleeps)
        else Resolution(addrs + Addresses(answers), d, None, k + 1, sleeps)
  }

  /** One resolution: nothing elapsed, the configured initial wait, no addresses. */
  function Resolve(cfg: Budget, name: string, nameserver: string, script: seq<Outcome>): (r: Resolution)
    ensures r.attempts <= |script|
    ensures r.err.Some? ==> r.addrs == []
  {
    Run(cfg, name, nameserver, script, 0, 0, cfg.retryWait, [], [])
  }

  // ---------------------------------------------------------------------------
  // A declarative description of the resolver, independent of Run.

  /** Attempt i, a temporary error, leaves budget for the current backoff delay:
      the round-trip times so far plus the wait (the initial wait doubled once per
      earlier temporary error) stay below the timeout. */
  ghost predicate UnderBudget(cfg: Budget, script: seq<Outcome>, i: nat)
    requires i < |script|
  {
    SumRtt(script[..i + 1]) + cfg.retryWait * Pow2(Transients(script[..i])) < cfg.timeout
  }

  /** Attempt i is followed by another: a temporary error within budget, or a
      successful truncated reply. */
  ghost predicate Retries(cfg: Budget, script: seq<Outcome>, i: nat)
    requires i < |script|
  {
    match script[i]
    case TempErr(_) => UnderBudget(cfg, script, i)
    case PermErr(_) => false
    case Reply(_, rcode, _, truncated) => rcode == RcodeSuccess && truncated
  }

  /** The error with which a final attempt ends the resolution. */
  function ErrorOf(name: string, nameserver: string, o: Outcome): Option<Error>
  {
    match o
    case TempErr(_) => Some(Transport(true))
    case PermErr(_) => Some(Transport(false))
    case Reply(_, rcode, _, _) =>
      if rcode == RcodeSuccess then None else Some(ServerError(name, nameserver, rcode))
  }

  /** r is what a resolver makes of the script: it stops at the first attempt
      that does not retry (or runs out of script), reports the summed round-trip
      times of the attempts made, the addresses of all replies on success and
      none on error, and one doubling delay per retried temporary error. */
  ghost predicate Characterises(cfg: Budget, name: string, nameserver: string,
                                script: seq<Outcome>, r: Resolution)
  {
    && r.attempts <= |script|
    && r.dur == SumRtt(script[..r.attempts])
    && (|r.sleeps| > 0 ==> cfg.retryWait * Pow2(|r.sleeps| - 1) < cfg.timeout)
    && (r.err == Some(Unfinished) ==>
          && r.attempts == |script|
          && r.addrs == []
          && (forall i :: 0 <= i < |script| ==> Retries(cfg, script, i))
          && r.sleeps == Backoff(cfg.retryWait, Transients(script)))
    && (r.err != Some(Unfinished) ==>
          && 0 < r.attempts
          && (forall i :: 0 <= i < r.attempts - 1 ==> Retries(cfg, script, i))
          && !Retries(cfg, script, r.attempts - 1)
          && r.err == ErrorOf(name, nameserver, script[r.attempts - 1])
          && r.addrs == (if r.err.None? then Collected(script[..r.attempts]) else [])
          && r.sleeps == Backoff(cfg.retryWait, Transients(script[..r.attempts - 1])))
  }

  /** The loop state after k attempts that all retried. */
  ghost predicate Reached(cfg: Budget, script: seq<Outcome>, k: nat,
                          dur: int, wait: int, addrs: seq<IP>, sleeps: seq<int>)
  {
    && k <= |script|
    && (forall i :: 0 <= i < k ==> Retries(cfg, script, i))
    && dur == SumRtt(script[..k])
    && wait == cfg.retryWait * Pow2(Transients(script[..k]))
    && addrs == Collected(script[..k])
    && sleeps == Backoff(cfg.retryWait, Transients(script[..k]))
    && (|sleeps| > 0 ==> cfg.retryWait * Pow2(|sleeps| - 1) < cfg.timeout)
  }

  lemma {:induction false} BackoffAt(initial: int, n: nat)
    ensures |Backoff(initial, n)| == n
    ensures forall j :: 0 <= j < n ==> Backoff(initial, n)[j] == initial * Pow2(j)
  {
    if n > 0 {
      BackoffAt(initial, n - 1);
    }
  }

  lemma {:induction false} SumRttNonNegative(attempts: seq<Outcome>)
    ensures SumRtt(attempts) >= 0
  {
    if attempts != [] {
      SumRttNonNegative(attempts[..|attempts| - 1]);
    }
  }

  /** The state after attempt k, when attempt k retries. */
  function NextWait(o: Outcome, wait: int): int
  {
    if o.TempErr? then wait * 2 else wait
  }

  function NextSleeps(o: Outcome, wait: int, sleeps: seq<int>): seq<int>
  {
    if o.TempErr? then sleeps + [wait] else sleeps
  }

  /** A retrying attempt takes one reached state to the next, and the run goes on from there. */
  lemma StepReached(cfg: Budget, script: seq<Outcome>,
                    k: nat, dur: int, wait: int, addrs: seq<IP>, sleeps: seq<int>)
    requires Reached(cfg, script, k, dur, wait, addrs, sleeps)
    requires k < |script| && Retries(cfg, script, k)
    ensures Reached(cfg, script, k + 1, dur + script[k].rtt, NextWait(script[k], wait),
                    Collected(script[..k + 1]), NextSleeps(script[k], wait, sleeps))
  {
    var o := script[k];
    var t := Transients(script[..k]);
    assert script[..k + 1][..k] == script[..k];
    assert SumRtt(script[..k + 1]) == dur + o.rtt;
    assert Transients(script[..k + 1]) == t + (if o.TempErr? then 1 else 0);
    assert Collected(script[..k + 1]) == addrs + (if o.Reply? then Addresses(o.answers) else []);
    if o.TempErr? {
      assert wait * 2 == cfg.retryWait * Pow2(t + 1);
      SumRttNonNegative(script[..k]);
      BackoffAt(cfg.retryWait, t);
    }
  }

  /** From a reached state, a retrying attempt hands the run on to that next state. */
  lemma StepRun(cfg: Budget, name: string, nameserver: string, script: seq<Outcome>,
                k: nat, dur: int, wait: int, addrs: seq<IP>, sleeps: seq<int>)
    requires Reached(cfg, script, k, dur, wait, addrs, sleeps)
    requires k < |script| && Retries(cfg, script, k)
    ensures Run(cfg, name, nameserver, script, k, dur, wait, addrs, sleeps)
         == Run(cfg, name, nameserver, script, k + 1, dur + script[k].rtt, NextWait(script[k], wait),
                Collected(script[..k + 1]), NextSleeps(script[k], wait, sleeps))
  {
    var o := script[k];
    assert script[..k + 1][..k] == script[..k];
    assert SumRtt(script[..k + 1]) == dur + o.rtt;
    assert Collected(script[..k + 1]) == addrs + (if o.Reply? then Addresses(o.answers) else []);
    if o.TempErr? {
      assert dur + o.rtt + wait < cfg.timeout;
      assert Collected(script[..k + 1]) == addrs;
    }
  }

  /** A run that is out of script, or whose next attempt does not retry, ends as
      Characterises describes. */
  lemma StopFacts(cfg: Budget, name: string, nameserver: string, script: seq<Outcome>,
                  k: nat, dur: int, wait: int, addrs: seq<IP>, sleeps: seq<int>)
    requires Reached(cfg, script, k, dur, wait, addrs, sleeps)
    requires k == |script| || !Retries(cfg, script, k)
    ensures Characterises(cfg, name, nameserver, script, Run(cfg, name, nameserver, script, k, dur, wait, addrs, sleeps))
  {
    if k == |script| {
      assert script[..k] == script;
    } else {
      var o := script[k];
      assert script[..k + 1][..k] == script[..k];
      assert SumRtt(script[..k + 1]) == dur + o.rtt;
      assert Collected(script[..k + 1]) == addrs + (if o.Reply? then Addresses(o.answers) else []);
    }
  }

  /** Every run that starts from a reached state stops as Characterises describes. */
  lemma {:induction false} RunFacts(cfg: Budget, name: string, nameserver: string, script: seq<Outcome>,
                                    k: nat, dur: int, wait: int, addrs: seq<IP>, sleeps: seq<int>)
    requires Reached(cfg, script, k, dur, wait, addrs, sleeps)
    ensures Characterises(cfg, name, nameserver, script, Run(cfg, name, nameserver, script, k, dur, wait, addrs, sleeps))
    decreases |script| - k
  {
    if k == |script| || !Retries(cfg, script, k) {
      StopFacts(cfg, name, nameserver, script, k, dur, wait, addrs, sleeps);
    } else {
      StepReached(cfg, script, k, dur, wait, addrs, sleeps);
      StepRun(cfg, name, nameserver, script, k, dur, wait, addrs, sleeps);
      RunFacts(cfg, name, nameserver, script, k + 1, dur + script[k].rtt, NextWait(script[k], wait),
               Collected(script[..k + 1]), NextSleeps(script[k], wait, sleeps));
    }
  }

  /** The resolver behaves as Characterises describes. */
  lemma ResolveCharacterised(cfg: Budget, name: string, nameserver: string, script: seq<Outcome>)
    ensures Characterises(cfg, name, nameserver, script, Resolve(cfg, name, nameserver, script))
  {
    assert script[..0] == [];
    RunFacts(cfg, name, nameserver, script, 0, 0, cfg.retryWait, [], []);
  }

  /** Characterises pins the resolution down completely. */
  lemma CharacterisationUnique(cfg: Budget, name: string, nameserver: string, script: seq<Outcome>,
                               r1: Resolution, r2: Resolution)
    requires Characterises(cfg, name, nameserver, script, r1)
    requires Characterises(cfg, name, nameserver, script, r2)
    ensures r1 == r2
  {
  }

  // ---------------------------------------------------------------------------
  // The properties the resolver promises, one at a time.

  /** The reported duration is the sum of the round-trip times of the attempts
      made, on every exit path; backoff sleeps are never added. */
  lemma ResolveDuration(cfg: Budget, name: string, nameserver: string, script: seq<Outcome>)
    ensures var r := Resolve(cfg, name, nameserver, script);
      r.attempts <= |script| && r.dur == SumRtt(script[..r.attempts])
  {
    ResolveCharacterised(cfg, name, nameserver, script);
  }

  /** A temporary error is followed by another attempt exactly when the elapsed
      time plus the current backoff delay is below the timeout. */
  lemma TransientRetriedIffUnderBudget(cfg: Budget, name: string, nameserver: string,
                                       script: seq<Outcome>, i: nat)
    requires i < |script| && script[i].TempErr?
    requires i < Resolve(cfg, name, nameserver, script).attempts
    ensures var r := Resolve(cfg, name, nameserver, script);
      (i + 1 < r.attempts || r.err == Some(Unfinished)) <==> UnderBudget(cfg, script, i)
  {
    ResolveCharacterised(cfg, name, nameserver, script);
    assert Retries(cfg, script, i) <==> UnderBudget(cfg, script, i);
  }

  /** A temporary error over budget ends the resolution: the elapsed time plus
      the delay the next retry would have slept reaches the timeout. */
  lemma TransientGiveUp(cfg: Budget, name: string, nameserver: string, script: seq<Outcome>)
    ensures var r := Resolve(cfg, name, nameserver, script);
      r.err == Some(Transport(true)) ==>
        r.addrs == [] && r.dur + cfg.retryWait * Pow2(|r.sleeps|) >= cfg.timeout
  {
    var r := Resolve(cfg, name, nameserver, script);
    ResolveCharacterised(cfg, name, nameserver, script);
    if r.err == Some(Transport(true)) {
      BackoffAt(cfg.retryWait, Transients(script[..r.attempts - 1]));
    }
  }

  /** The k-th retry sleeps the initial wait times 2^k. */
  lemma ResolveBackoff(cfg: Budget, name: string, nameserver: string, script: seq<Outcome>)
    ensures var r := Resolve(cfg, name, nameserver, script);
      forall j :: 0 <= j < |r.sleeps| ==> r.sleeps[j] == cfg.retryWait * Pow2(j)
  {
    var r := Resolve(cfg, name, nameserver, script);
    ResolveCharacterised(cfg, name, nameserver, script);
    if r.err == Some(Unfinished) {
      BackoffAt(cfg.retryWait, Transients(script));
    } else {
      BackoffAt(cfg.retryWait, Transients(script[..r.attempts - 1]));
    }
  }

  lemma {:induction false} LinearBelowPow2(n: nat)
    requires n >= 1
    ensures n <= Pow2(n - 1)
  {
    if n > 1 {
      LinearBelowPow2(n - 1);
    }
  }

  /** With a positive initial wait the number of temporary-error retries is
      bounded: n retries need n * RetryWait below the timeout. */
  lemma RetriesBounded(cfg: Budget, name: string, nameserver: string, script: seq<Outcome>)
    requires cfg.retryWait > 0
    ensures var r := Resolve(cfg, name, nameserver, script);
      |r.sleeps| * cfg.retryWait < cfg.timeout || r.sleeps == []
  {
    var n := |Resolve(cfg, name, nameserver, script).sleeps|;
    LastSleepWithinBudget(cfg, name, nameserver, script);
    if n > 0 {
      LinearBelowPow2(n);
      ScaleBelow(n, Pow2(n - 1), cfg.retryWait);
    }
  }

  /** The last sleep was granted below the timeout. */
  lemma LastSleepWithinBudget(cfg: Budget, name: string, nameserver: string, script: seq<Outcome>)
    ensures var r := Resolve(cfg, name, nameserver, script);
      |r.sleeps| > 0 ==> cfg.retryWait * Pow2(|r.sleeps| - 1) < cfg.timeout
  {
    ResolveCharacterised(cfg, name, nameserver, script);
  }

  /** Doubling never shrinks: 2^i <= 2^j for i <= j. */
  lemma {:induction false} Pow2Monotone(i: nat, j: nat)
    requires i <= j
    ensures Pow2(i) <= Pow2(j)
  {
    if i < j {
      Pow2Monotone(i, j - 1);
    }
  }

  /** With a non-negative initial wait every sleep is at most the last one, so
      the last sleep, granted below the timeout, is the longest. */
  lemma LastSleepLongest(cfg: Budget, name: string, nameserver: string, script: seq<Outcome>)
    ensures var r := Resolve(cfg, name, nameserver, script);
      cfg.retryWait >= 0 ==>
        forall j :: 0 <= j < |r.sleeps| ==> r.sleeps[j] <= r.sleeps[|r.sleeps| - 1]
  {
    var r := Resolve(cfg, name, nameserver, script);
    ResolveBackoff(cfg, name, nameserver, script);
    if cfg.retryWait >= 0 {
      forall j | 0 <= j < |r.sleeps|
        ensures r.sleeps[j] <= r.sleeps[|r.sleeps| - 1]
      {
        Pow2Monotone(j, |r.sleeps| - 1);
        ScaleBelow(Pow2(j), Pow2(|r.sleeps| - 1), cfg.retryWait);
      }
    }
  }

  lemma ScaleBelow(a: int, b: int, c: int)
    requires a <= b && c >= 0
    ensures a * c <= c * b
  {
  }

  /** An error (transport, either kind, or a bad response code) returns no
      addresses and is the outcome of the last attempt made. */
  lemma ErrorsStop(cfg: Budget, name: string, nameserver: string, script: seq<Outcome>)
    ensures var r := Resolve(cfg, name, nameserver, script);
      && r.attempts <= |script|
      && (r.err.Some? ==> r.addrs == [])
      && (r.err.Some? && r.err != Some(Unfinished) ==>
        0 < r.attempts && r.err == ErrorOf(name, nameserver, script[r.attempts - 1]))
  {
    ResolveCharacterised(cfg, name, nameserver, script);
  }

  /** On success the addresses are the A and AAAA answers of every reply, in
      attempt order and answer order, the last reply was complete, and every
      earlier attempt was a retried temporary error or a truncated reply. */
  lemma SuccessCollectsAll(cfg: Budget, name: string, nameserver: string, script: seq<Outcome>)
    ensures var r := Resolve(cfg, name, nameserver, script);
      r.err.None? ==>
        && 0 < r.attempts <= |script|
        && r.addrs == Collected(script[..r.attempts])
        && script[r.attempts - 1].Reply?
        && script[r.attempts - 1].rcode == RcodeSuccess
        && !script[r.attempts - 1].truncated
        && forall i :: 0 <= i < r.attempts - 1 ==> Retries(cfg, script, i)
  {
    ResolveCharacterised(cfg, name, nameserver, script);
  }

  /** A truncated successful reply always triggers another attempt, whatever
      the remaining budget: a server that always truncates is never done with. */
  lemma AlwaysTruncatedNeverReturns(cfg: Budget, name: string, nameserver: string, script: seq<Outcome>)
    requires forall i :: 0 <= i < |script| ==>
      script[i].Reply? && script[i].rcode == RcodeSuccess && script[i].truncated
    ensures Resolve(cfg, name, nameserver, script).err == Some(Unfinished)
  {
    var r := Resolve(cfg, name, nameserver, script);
    ResolveCharacterised(cfg, name, nameserver, script);
  }

  /** The A and AAAA records of an answer section, and only they, give addresses. */
  lemma {:induction false} AddressesMembers(answers: seq<Answer>, ip: IP)
    ensures ip in Addresses(answers) <==>
      exists i :: 0 <= i < |answers| && (answers[i] == A(ip) || answers[i] == AAAA(ip))
  {
    if answers != [] {
      var init := answers[..|answers| - 1];
      AddressesMembers(init, ip);
      if ip in Addresses(init) {
        var i :| 0 <= i < |init| && (init[i] == A(ip) || init[i] == AAAA(ip));
        assert answers[i] == init[i];
      }
      if exists i :: 0 <= i < |answers| && (answers[i] == A(ip) || answers[i] == AAAA(ip)) {
        var i :| 0 <= i < |answers| && (answers[i] == A(ip) || answers[i] == AAAA(ip));
        if i < |init| {
          assert init[i] == answers[i];
        }
      }
    }
  }

  /** Addresses keeps the answer order: filtering a concatenation concatenates. */
  lemma {:induction false} AddressesAppend(a: seq<Answer>, b: seq<Answer>)
    ensures Addresses(a + b) == Addresses(a) + Addresses(b)
    decreases |b|
  {
    if b == [] {
      assert a + b == a;
    } else {
      var b' := b[..|b| - 1];
      assert (a + b)[..|a + b| - 1] == a + b';
      AddressesAppend(a, b');
    }
  }

  lemma AddressesPrefix(answers: seq<Answer>, j: nat)
    requires j < |answers|
    ensures Addresses(answers[..j + 1]) == Addresses(answers[..j]) + AddressOf(answers[j])
  {
    assert answers[..j + 1][..j] == answers[..j];
  }

  /** A reply truncated once and then complete yields the records of both. */
  lemma TruncatedThenComplete(cfg: Budget, name: string, nameserver: string,
                              rtt1: nat, first: seq<Answer>, rtt2: nat, second: seq<Answer>)
    ensures var r := Resolve(cfg, name, nameserver,
                             [Reply(rtt1, RcodeSuccess, first, true), Reply(rtt2, RcodeSuccess, second, false)]);
      r.err.None? && r.addrs == Addresses(first) + Addresses(second) && r.dur == rtt1 + rtt2 && r.attempts == 2
  {
    var s := [Reply(rtt1, RcodeSuccess, first, true), Reply(rtt2, RcodeSuccess, second, false)];
    assert [] + Addresses(first) == Addresses(first);
    assert Resolve(cfg, name, nameserver, s) == Run(cfg, name, nameserver, s, 1, rtt1, cfg.retryWait, Addresses(first), []);
    assert Run(cfg, name, nameserver, s, 1, rtt1, cfg.retryWait, Addresses(first), [])
        == Resolution(Addresses(first) + Addresses(second), rtt1 + rtt2, None, 2, []);
  }

  /** With the default five-second timeout and two-second initial wait, three
      temporary errors of 0.1s each end in a timeout error whose reported
      duration (0.3s) is far below the timeout: sleeps are not counted. */
  lemma TimeoutReportedBelowBudget(name: string, nameserver: string)
    ensures var r := Resolve(Budget(5_000_000_000, 2_000_000_000), name, nameserver,
                             [TempErr(100_000_000), TempErr(100_000_000), TempErr(100_000_000)]);
      r.err == Some(Transport(true)) && r.dur == 300_000_000 && r.sleeps == [2_000_000_000, 4_000_000_000]
  {
  }
}
