/**
 * The Redlock acquisition and release protocol as functions of the
 * instances' key spaces. The methods of `Coordinator.RedLock` are proved to
 * compute exactly these functions; `Properties` proves what they promise.
 */
module Protocol {

  import opened Wrappers
  import opened Results
  import opened Stores

  /** Attempts made by one acquisition before it gives up. */
  const RetryCount: nat := 3
  /** Base of the randomised pause between two attempts, in milliseconds. */
  const RetryDelay: int := 200
  /** Lease used when the caller gives none, in milliseconds. */
  const DefaultTtl: int := 60000
  /** Fraction of the lease set aside for clock drift between instances. */
  const ClockDriftFactor: real := 0.01
  /** Fixed allowance, in milliseconds, added to the drift. */
  const MinDrift: real := 2.0

  /**
   * Instances that must grant the lock: min(N, N / 2 + 1). It is the
   * smallest strict majority, so two disjoint sets of instances cannot both
   * reach it.
   */
  function Quorum(n: nat): (q: nat)
    ensures n >= 1 ==> 1 <= q <= n && n < 2 * q
    ensures n >= 1 ==> 2 * (q - 1) <= n
    ensures n == 0 ==> q == 0
  {
    if n < n / 2 + 1 then n else n / 2 + 1
  }

  /**
   * Allowance for clock drift over a lease of `ttl` milliseconds: the fixed
   * allowance plus a share of the lease that grows with it.
   */
  function Drift(ttl: int): (d: real)
    ensures 0 <= ttl ==> MinDrift <= d <= MinDrift + ttl as real
  {
    ttl as real * ClockDriftFactor + MinDrift
  }

  /**
   * Time left on the lease after the fan-out took `elapsed` milliseconds
   * and the drift allowance is taken off. A positive window is always
   * shorter than the lease and only possible for a positive lease; for a
   * non-negative lease at least the fixed allowance is taken off.
   */
  function Validity(ttl: int, elapsed: nat): (v: real)
    ensures v > 0.0 ==> 0 < ttl && v < ttl as real
    ensures 0 <= ttl ==> v <= ttl as real - elapsed as real - MinDrift
  {
    ttl as real - elapsed as real - Drift(ttl)
  }

  /**
   * The pause before the next attempt for a uniform draw `random` in
   * [0, 1): the draw scaled to [RetryDelay / 2, RetryDelay) and truncated.
   */
  function JitterDelay(random: real): (d: int)
    requires 0.0 <= random < 1.0
    ensures RetryDelay / 2 <= d < RetryDelay
  {
    (random * (RetryDelay - RetryDelay / 2) as real + (RetryDelay / 2) as real).Floor
  }

  /**
   * Every instance after SET NX of `key` to `token`: each one now has the
   * key, the free ones hold the token, and the others are unchanged.
   */
  function AcquireAll(ms: seq<Data>, key: string, token: string): (r: seq<Data>)
    ensures |r| == |ms|
    ensures forall i :: 0 <= i < |ms| && key in ms[i] ==> r[i] == ms[i]
    ensures forall i :: 0 <= i < |ms| && key !in ms[i] ==> Holds(r[i], key, token) && r[i] - {key} == ms[i] - {key}
  {
    seq(|ms|, i requires 0 <= i < |ms| => TrySet(ms[i], key, token))
  }

  /**
   * Every instance after the release script for `key` and `token`: none of
   * them holds the token any more, those that held it have lost the key,
   * and the others are unchanged.
   */
  function ReleaseAll(ms: seq<Data>, key: string, token: string): (r: seq<Data>)
    ensures |r| == |ms|
    ensures NotHeld(r, key, token)
    ensures forall i :: 0 <= i < |ms| && Holds(ms[i], key, token) ==> key !in r[i] && r[i] == ms[i] - {key}
    ensures forall i :: 0 <= i < |ms| && !Holds(ms[i], key, token) ==> r[i] == ms[i]
  {
    seq(|ms|, i requires 0 <= i < |ms| => CompareAndDelete(ms[i], key, token))
  }

  /** How many instances do not hold `key`, i.e. would accept SET NX. */
  function Free(ms: seq<Data>, key: string): (n: nat)
    ensures n <= |ms|
  {
    if ms == [] then 0
    else Free(ms[..|ms| - 1], key) + (if key !in ms[|ms| - 1] then 1 else 0)
  }

  /** How many instances hold `key` with the value `token`. */
  function Holding(ms: seq<Data>, key: string, token: string): (n: nat)
    ensures n <= |ms|
  {
    if ms == [] then 0
    else Holding(ms[..|ms| - 1], key, token) + (if Holds(ms[|ms| - 1], key, token) then 1 else 0)
  }

  /** No instance holds `key` with the value `token`: the token is fresh. */
  predicate NotHeld(ms: seq<Data>, key: string, token: string)
  {
    forall i :: 0 <= i < |ms| ==> !Holds(ms[i], key, token)
  }

  /** After the fan-out, the instances holding the token are those that granted it plus those that held it before. */
  lemma {:induction false} AcquireHolding(ms: seq<Data>, key: string, token: string)
    ensures Holding(AcquireAll(ms, key, token), key, token) == Free(ms, key) + Holding(ms, key, token)
  {
    if ms != [] {
      var init := ms[..|ms| - 1];
      assert AcquireAll(ms, key, token)[..|ms| - 1] == AcquireAll(init, key, token);
      AcquireHolding(init, key, token);
    }
  }

  /** What an acquisition returns, the instances afterwards and the attempts it made. */
  datatype Outcome = Outcome(result: Option<LockResult>, stores: seq<Data>, attempts: nat)

  /**
   * One attempt: SET NX on every instance, then accept when at least
   * `quorum` granted it and the validity window is positive, or else run
   * the release script for the attempt's token on every instance.
   */
  function Attempt(ms: seq<Data>, quorum: nat, resource: string, ttl: int, token: string, elapsed: nat)
    : (r: (Option<LockResult>, seq<Data>))
    ensures |r.1| == |ms|
    ensures r.0.Some? <==> Free(ms, resource) >= quorum && Validity(ttl, elapsed) > 0.0
    ensures r.0.Some? ==>
      && r.0.value == LockResult(resource, token, Validity(ttl, elapsed))
      && 0.0 < r.0.value.validity < ttl as real
      && Holding(r.1, resource, token) >= quorum
    ensures r.0.None? ==> NotHeld(r.1, resource, token)
  {
    var written := AcquireAll(ms, resource, token);
    var validity := Validity(ttl, elapsed);
    AcquireHolding(ms, resource, token);
    if Free(ms, resource) >= quorum && validity > 0.0 then
      (Some(LockResult(resource, token, validity)), written)
    else
      (None, ReleaseAll(written, resource, token))
  }

  /**
   * The do-while retry loop from attempt number `attempt` on, with `retry`
   * attempts left; `elapsed(k)` is how long the fan-out of attempt `k` took.
   */
  function Retry(ms: seq<Data>, quorum: nat, resource: string, ttl: int, token: string,
                 elapsed: nat -> nat, retry: nat, attempt: nat): (o: Outcome)
    requires retry >= 1
    ensures |o.stores| == |ms|
    ensures attempt + 1 <= o.attempts <= attempt + retry
    ensures o.result.None? ==> o.attempts == attempt + retry
    decreases retry
  {
    var (result, after) := Attempt(ms, quorum, resource, ttl, token, elapsed(attempt));
    if result.Some? || retry == 1 then Outcome(result, after, attempt + 1)
    else Retry(after, quorum, resource, ttl, token, elapsed, retry - 1, attempt + 1)
  }

  /** A whole acquisition: nothing at all without instances, else up to RetryCount attempts. */
  function LockSpec(ms: seq<Data>, quorum: nat, resource: string, ttl: int, token: string,
                    elapsed: nat -> nat): (o: Outcome)
    ensures |o.stores| == |ms|
    ensures ms == [] ==> o.result == None && o.stores == ms && o.attempts == 0
    ensures ms != [] ==> 1 <= o.attempts <= RetryCount
    ensures ms != [] && o.result.None? ==> o.attempts == RetryCount
  {
    if ms == [] then Outcome(None, ms, 0)
    else Retry(ms, quorum, resource, ttl, token, elapsed, RetryCount, 0)
  }

}
