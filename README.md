# godns address pool, modelled in Dafny

The `godns` package keeps a pool of TCP addresses per `"host:port"` key.
`Pool.Get` returns one of the cached addresses for a key: the first, or a
random one when `Randomize` is set. On a miss it resolves the host with
`Pool.ResolveName`, caches one randomly chosen IP paired with the parsed port,
and then looks the key up again. `Pool.ResolveName` sends an A query over TCP
to the name server. It retries temporary transport errors with a doubling
backoff delay while the summed round-trip times plus the delay stay below
`Timeout`. It gives up on any other error or a non-success response code. It
collects the A and AAAA answers of each reply, and on a truncated reply it asks
again, keeping what it already collected.

The model has three files:

- `types.dfy` (module `DnsTypes`): addresses, answer records, exchange
  outcomes, errors, and the resolver's result `Resolution`.
- `resolver.dfy` (module `Resolver`): the resolver loop as the function `Run`
  over a scripted sequence of exchange outcomes. Beside it is a declarative
  description, `Characterises`: the resolver stops at the first attempt that
  does not retry. The lemmas prove that `Run` meets this description, that
  the description fixes the result uniquely, and the individual promises drawn
  from it.
- `pool.dfy` (module `Godns`): the class `Pool` with its `records` map, the
  imperative `ResolveName` loop proved equal to `Resolver.Resolve`, and `Get`.

Inputs that the source takes from the environment are parameters here:

- The exchange with the name server is a `script`: the i-th exchange yields
  `script[i]`. It is a temporary error, a permanent error, or a reply with an
  rcode, answers and a truncation bit, and each carries its round-trip time.
  Needing more exchanges than the script holds ends in the error `Unfinished`,
  which stands for "the source would call the server again".
- `rand.Intn(n)` is a caller-supplied number reduced modulo `n`. Every index
  in `[0, n)` is reachable that way.
- `net.SplitHostPort` and `strconv.Atoi` are function-typed parameters of
  `Get`. `atoi` is total because `Get` ignores the parse error.
- `time.Sleep(retryWait)` is recorded as an entry of the returned `sleeps`.
  The number of exchanges made is returned as `attempts`, and as `queries`
  from `Get`.

Durations are integers in nanoseconds. The defaults of `New` are kept:
5 s timeout, 2 s step timeout, 2 s initial retry wait, randomisation on,
and the name server `8.8.8.8:53`.

Points where a caller's natural expectation differs from what the code does:

- A caller might expect that a resolver seeing only temporary errors reports
  an elapsed duration of at least the timeout. The code adds only round-trip
  times to `dur` and never the sleeps. The lemma `TimeoutReportedBelowBudget`
  gives a case with the default settings where it reports 0.3 s.
- A caller might expect a lookup key to need a non-empty host and a numeric
  port. The code only requires the split to succeed. It ignores the `Atoi`
  error, so port 0 (or `Atoi`'s clamped value) is cached.
- A caller might expect lookups to be balanced over all resolved addresses.
  The code caches a single randomly drawn IP per key: a miss stores a
  one-element entry and a hit stores nothing. So under sequential calls every
  entry keeps exactly one address (`Pool.Single`, kept by `New` and `Get`), and
  every later `Get` of the key returns that address. The random choice among
  several cached addresses (dns.go:53-54) is reachable only when two
  unsynchronised concurrent misses of the same key both append. The model does
  not cover that case, since it covers sequential calls only.
- A caller might expect a truncated reply followed by a complete one to yield
  the union of both replies' records. The code concatenates them
  (`TruncatedThenComplete`: the addresses are those of the first reply followed
  by those of the second). So an IP that both replies carry appears twice, and
  the random draw that picks the cached IP (dns.go:66) favours it.
- A caller might expect `Get` to be safe under concurrent calls. The code
  has no lock.

## Model

| member | source | states |
|---|---|---|
| `Godns.Pool.New` | dns.go:31-40 | An empty pool with the default name server, randomisation on, and the 5 s / 2 s / 2 s durations; every entry is non-empty and holds a single address. |
| `Godns.Pool.Get` | dns.go:43-68 | A failed split returns MalformedTarget with no exchange and the cache unchanged. A hit returns `Select` of the cached entry with no exchange and the cache unchanged. On a miss, a resolver error is returned as is and an empty result as EmptyIPs, both leaving the key absent. A non-empty result makes the cache the old one plus exactly `hostport := [a]`, where `a`'s IP is the drawn member of the resolved list and its port is the parsed port, and `a` is returned. The recursive re-entry terminates after one level. The cache only grows and every entry stays non-empty. If every entry held one address before, every entry still does, and a successful result is the entry now cached under the key. |
| `Godns.Select` | dns.go:48-56 | The returned address is an element of the entry. It is the first element when the entry has one address or randomisation is off. |
| `Godns.SelectReachesEvery` | dns.go:53-54 | With randomisation on, each cached address is returned for some random draw. |
| `Godns.LookupTwice` | dns.go:48-67 | After a successful lookup, a second lookup of the same key makes no exchange and returns an address cached under the key. Without randomisation, or when every entry held one address before, it returns the same address. |
| `Godns.Pool.ResolveName` | dns.go:71-114 | The loop's addresses, duration, error, exchange count and sleeps equal `Resolve` for the pool's timeout and retry wait. The duration is the sum of the round-trip times of the exchanges made. Errors carry no addresses. Success carries the collected A/AAAA answers. The j-th sleep is `RetryWait * 2^j`. |
| `Godns.AppendAddresses` | dns.go:102-109 | The answer loop appends to the accumulator exactly the A and AAAA addresses, in answer order. |
| `Resolver.Addresses` | dns.go:102-109 | The A and AAAA addresses of an answer section, in answer order, skipping other records; never more addresses than answers. |
| `Resolver.Run` | dns.go:80-113 | The loop from attempt k with the elapsed `dur`, the current `wait`, the collected addresses and the sleeps so far; running past the script gives Unfinished. Its attempt count lies between k and the script length, and an error carries no addresses. |
| `Resolver.Resolve` | dns.go:80-113 | One resolution starts the loop with nothing elapsed, the configured initial wait and no addresses. It makes at most as many attempts as the script holds, and an error carries no addresses. |
| `Resolver.ResolveCharacterised` | dns.go:80-113 | The resolver stops at the first attempt that does not retry, or runs out of script. Its error is that attempt's error. It reports the sum of the round-trip times, the collected addresses on success and none on error, and one doubling delay per retried temporary error. |
| `Resolver.CharacterisationUnique` | dns.go:80-113 | That description fixes the resolution completely: two results that meet it are equal. |
| `Resolver.RunFacts` | dns.go:83-113 | From any loop state reached by retrying attempts, the loop ends as described. |
| `Resolver.StepReached` | dns.go:87-111 | A retrying attempt adds its rtt to `dur`. On a temporary error it doubles the wait and records a sleep under the budget. On a truncated reply it extends the addresses with that reply's answers. |
| `Resolver.StepRun` | dns.go:87-111 | After a retrying attempt the loop goes on from that next state: the `goto Redo` of a temporary error within budget or of a truncated reply. |
| `Resolver.StopFacts` | dns.go:86-113 | An attempt that does not retry ends the resolution with its own error, and with the collected addresses only on success. |
| `Resolver.ResolveDuration` | dns.go:84-113 | On every exit path the reported duration is the sum of the round-trip times of the attempts made, with no sleep time added. |
| `Resolver.TransientRetriedIffUnderBudget` | dns.go:88-95 | A temporary error is followed by another attempt if and only if the elapsed rtt sum plus the current wait is below the timeout. |
| `Resolver.TransientGiveUp` | dns.go:89-96 | Giving up on a temporary error returns no addresses. At that point the duration plus the next wait has reached the timeout. |
| `Resolver.BackoffAt` | dns.go:92 | The k-th backoff delay is the initial wait times 2^k. |
| `Resolver.ResolveBackoff` | dns.go:81-93 | The k-th retry after a temporary error sleeps `RetryWait * 2^k`. |
| `Resolver.LastSleepWithinBudget` | dns.go:90-92 | The last sleep was granted below the timeout. |
| `Resolver.LastSleepLongest` | dns.go:90-92 | With a non-negative initial wait every sleep is at most the last one, so the last sleep is the longest. |
| `Resolver.RetriesBounded` | dns.go:81-93 | With a positive initial wait, the number of temporary-error retries n satisfies n * RetryWait < Timeout. |
| `Resolver.ErrorsStop` | dns.go:88-100 | Every error result carries no addresses. A transport error or a non-success rcode is the outcome of the last attempt made. |
| `Resolver.SuccessCollectsAll` | dns.go:102-113 | On success the last reply had a success rcode and was not truncated, and every earlier attempt retried. The addresses are the A/AAAA answers of all replies, in attempt order and answer order. |
| `Resolver.AlwaysTruncatedNeverReturns` | dns.go:110-111 | A truncated reply always triggers another attempt, whatever the budget, so a server that always truncates keeps the resolver asking. |
| `Resolver.AddressesMembers` | dns.go:102-109 | An IP is collected from an answer section exactly when the section holds an A or AAAA record with it. |
| `Resolver.AddressesAppend` | dns.go:102-109 | Collecting from concatenated answer sections concatenates the results, so answer order is kept. |
| `Resolver.TruncatedThenComplete` | dns.go:80-113 | A truncated reply followed by a complete one yields the addresses of both, in order, after two exchanges with the two rtts summed. |
| `Resolver.TimeoutReportedBelowBudget` | dns.go:87-96 | With the default settings, three temporary errors of 0.1 s end in a temporary-error failure reporting 0.3 s after sleeping 2 s and 4 s. |

## Left out

- The DNS exchange itself and its wire format are not modelled: building the TCP client, the A question with recursion desired, and the per-step read/write deadline. Each exchange is a scripted outcome, and `stepTimeout` is stored but not used.
- `net.Error.Temporary()` is not modelled: the classification is part of the outcome (`TempErr` or `PermErr`).
- `time.Sleep` is not performed: only its argument is recorded, in `sleeps`.
- `math/rand` is replaced by caller-supplied draws. Uniformity is not stated; only that every index is reachable.
- The internals of `net.SplitHostPort` and `strconv.Atoi` (including bracketed IPv6 hosts) are not modelled: they are parameters of `Get`.
- Concurrency is not modelled: the map is unguarded in the source, and the model covers sequential calls.
- The text of the error built for a non-success rcode is not modelled: `ServerError` carries the name, name server and rcode instead.
- Pool.Get: cached addresses are values. The source returns the very `*net.TCPAddr` stored in the map, so a caller that changes the returned address (its `Port`, say) changes what later lookups of that key return. That aliasing is not modelled.
- Pool.ResolveName: `time.Duration` is a 64-bit integer, while the model's durations are unbounded. An overflow of `dur` or of the doubled `retryWait` is not modelled.
- Pool.ResolveName: round-trip times are non-negative (`nat`), while Go's `time.Duration` is signed. The client measures each rtt as elapsed time, so a negative one is not expected; the bounds on sleeps and retries rely on it.
- Pool.Get: a `Pool` built as a struct literal rather than by `New` has a nil `records` map, and Go panics on its first successful miss at the map write of dns.go:66. The model has `New` as the only constructor, so that panic is not modelled.
- Pool.ResolveName: the source may call the server without end: on a server that always truncates, or with a non-positive wait and zero-rtt temporary errors. The model sees only the finite script and reports running past it as `Unfinished`.
