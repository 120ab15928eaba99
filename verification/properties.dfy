/**
 * What the protocol promises: the quorum is a majority, SET NX never
 * overwrites, the release script only ever removes the caller's own token,
 * a failed acquisition leaves every instance as it found it, a successful
 * one holds a quorum, and a lock held by a quorum excludes every other.
 */
module Properties {

  import opened Wrappers
  import opened Results
  import opened Stores
  import opened Protocol

  lemma QuorumExamples()
    ensures Quorum(1) == 1 && Quorum(2) == 2 && Quorum(3) == 2 && Quorum(4) == 3 && Quorum(5) == 3
  {
  }

  /** SET NX writes an absent key and leaves a present key and every other key alone. */
  lemma SetNxNeverOverwrites(m: Data, key: string, value: string)
    ensures key in m ==> TrySet(m, key, value) == m
    ensures key !in m ==> Holds(TrySet(m, key, value), key, value)
    ensures TrySet(m, key, value) - {key} == m - {key}
  {
  }

  /** The release script empties the key only when it holds the token. */
  lemma CompareAndDeleteOnlyOwnToken(m: Data, key: string, token: string)
    ensures Holds(m, key, token) ==> key !in CompareAndDelete(m, key, token)
    ensures !Holds(m, key, token) ==> CompareAndDelete(m, key, token) == m
    ensures CompareAndDelete(m, key, token) - {key} == m - {key}
  {
  }

  /**
   * Release across all instances: afterwards no instance holds the token,
   * an instance that held it has lost the key, and every other instance
   * (a different value, or no value) is unchanged.
   */
  lemma ReleaseOnlyOwnToken(ms: seq<Data>, key: string, token: string)
    ensures |ReleaseAll(ms, key, token)| == |ms|
    ensures NotHeld(ReleaseAll(ms, key, token), key, token)
    ensures forall i :: 0 <= i < |ms| && Holds(ms[i], key, token) ==> key !in ReleaseAll(ms, key, token)[i]
    ensures forall i :: 0 <= i < |ms| && !Holds(ms[i], key, token) ==> ReleaseAll(ms, key, token)[i] == ms[i]
  {
  }

  /** Releasing twice is the same as releasing once. */
  lemma ReleaseIdempotent(ms: seq<Data>, key: string, token: string)
    ensures ReleaseAll(ReleaseAll(ms, key, token), key, token) == ReleaseAll(ms, key, token)
  {
  }

  /** Releasing a fresh token changes nothing. */
  lemma ReleaseFreshTokenNoOp(ms: seq<Data>, key: string, token: string)
    requires NotHeld(ms, key, token)
    ensures ReleaseAll(ms, key, token) == ms
  {
  }

  /** Rolling back an attempt made with a fresh token restores every instance. */
  lemma RollbackRestores(ms: seq<Data>, key: string, token: string)
    requires NotHeld(ms, key, token)
    ensures ReleaseAll(AcquireAll(ms, key, token), key, token) == ms
  {
    var after := ReleaseAll(AcquireAll(ms, key, token), key, token);
    forall i | 0 <= i < |ms|
      ensures after[i] == ms[i]
    {
      assert !Holds(ms[i], key, token);
    }
  }

  /** An instance cannot both be free of the key and hold it. */
  lemma {:induction false} FreeAndHoldingDisjoint(ms: seq<Data>, key: string, token: string)
    ensures Free(ms, key) + Holding(ms, key, token) <= |ms|
  {
    if ms != [] {
      FreeAndHoldingDisjoint(ms[..|ms| - 1], key, token);
    }
  }

  /**
   * From any attempt on: at most `retry` more attempts are made, and a
   * returned lock names the resource and the token, has a validity window
   * in (0, ttl), and is held on at least `quorum` instances.
   */
  lemma {:induction false} RetryOutcome(ms: seq<Data>, quorum: nat, resource: string, ttl: int, token: string,
                                        elapsed: nat -> nat, retry: nat, attempt: nat)
    requires retry >= 1
    decreases retry
    ensures var o := Retry(ms, quorum, resource, ttl, token, elapsed, retry, attempt);
      && attempt + 1 <= o.attempts <= attempt + retry
      && (o.result.None? ==> o.attempts == attempt + retry)
      && (o.result.Some? ==>
            && o.result.value.resource == resource
            && o.result.value.value == token
            && 0.0 < o.result.value.validity < ttl as real
            && Holding(o.stores, resource, token) >= quorum)
  {
    var (result, after) := Attempt(ms, quorum, resource, ttl, token, elapsed(attempt));
    if result.None? && retry > 1 {
      RetryOutcome(after, quorum, resource, ttl, token, elapsed, retry - 1, attempt + 1);
    }
  }

  /** With a fresh token, a run of attempts that ends without a lock leaves every instance as it was. */
  lemma {:induction false} RetryFailureRestores(ms: seq<Data>, quorum: nat, resource: string, ttl: int, token: string,
                                                elapsed: nat -> nat, retry: nat, attempt: nat)
    requires retry >= 1
    decreases retry
    requires NotHeld(ms, resource, token)
    ensures var o := Retry(ms, quorum, resource, ttl, token, elapsed, retry, attempt);
      o.result.None? ==> o.stores == ms
  {
    var (result, after) := Attempt(ms, quorum, resource, ttl, token, elapsed(attempt));
    if result.None? {
      RollbackRestores(ms, resource, token);
      if retry > 1 {
        RetryFailureRestores(after, quorum, resource, ttl, token, elapsed, retry - 1, attempt + 1);
      }
    }
  }

  /** With a fresh token and fewer than `quorum` free instances, every attempt fails and nothing changes. */
  lemma {:induction false} RetryFailsWhenTaken(ms: seq<Data>, quorum: nat, resource: string, ttl: int, token: string,
                                               elapsed: nat -> nat, retry: nat, attempt: nat)
    requires retry >= 1
    decreases retry
    requires NotHeld(ms, resource, token)
    requires Free(ms, resource) < quorum
    ensures Retry(ms, quorum, resource, ttl, token, elapsed, retry, attempt) == Outcome(None, ms, attempt + retry)
  {
    RollbackRestores(ms, resource, token);
    if retry > 1 {
      RetryFailsWhenTaken(ms, quorum, resource, ttl, token, elapsed, retry - 1, attempt + 1);
    }
  }

  /** With a fresh token, releasing the token of a returned lock restores every instance. */
  lemma {:induction false} RetryThenReleaseRestores(ms: seq<Data>, quorum: nat, resource: string, ttl: int, token: string,
                                                    elapsed: nat -> nat, retry: nat, attempt: nat)
    requires retry >= 1
    decreases retry
    requires NotHeld(ms, resource, token)
    ensures var o := Retry(ms, quorum, resource, ttl, token, elapsed, retry, attempt);
      o.result.Some? ==> ReleaseAll(o.stores, resource, token) == ms
  {
    var (result, after) := Attempt(ms, quorum, resource, ttl, token, elapsed(attempt));
    RollbackRestores(ms, resource, token);
    if result.None? && retry > 1 {
      RetryThenReleaseRestores(after, quorum, resource, ttl, token, elapsed, retry - 1, attempt + 1);
    }
  }

  /**
   * A whole acquisition: with no instances it returns None and touches
   * nothing; otherwise it makes between one and RetryCount attempts, and a
   * returned lock carries the resource and the token, a validity window in
   * (0, ttl), and is held on at least `quorum` instances.
   */
  lemma LockOutcome(ms: seq<Data>, quorum: nat, resource: string, ttl: int, token: string, elapsed: nat -> nat)
    ensures var o := LockSpec(ms, quorum, resource, ttl, token, elapsed);
      && (ms == [] ==> o.result == None && o.stores == ms && o.attempts == 0)
      && (ms != [] ==> 1 <= o.attempts <= RetryCount)
      && (ms != [] && o.result.None? ==> o.attempts == RetryCount)
      && (o.result.Some? ==>
            && o.result.value.resource == resource
            && o.result.value.value == token
            && 0.0 < o.result.value.validity < ttl as real
            && Holding(o.stores, resource, token) >= quorum)
  {
    if ms != [] {
      RetryOutcome(ms, quorum, resource, ttl, token, elapsed, RetryCount, 0);
    }
  }

  /** A failed acquisition with a fresh token leaves every instance as it found it. */
  lemma LockFailureRollsBack(ms: seq<Data>, quorum: nat, resource: string, ttl: int, token: string, elapsed: nat -> nat)
    requires NotHeld(ms, resource, token)
    ensures var o := LockSpec(ms, quorum, resource, ttl, token, elapsed);
      o.result.None? ==> o.stores == ms
  {
    if ms != [] {
      RetryFailureRestores(ms, quorum, resource, ttl, token, elapsed, RetryCount, 0);
    }
  }

  /** Releasing the token of a successful acquisition removes every key it wrote. */
  lemma LockThenReleaseRestores(ms: seq<Data>, quorum: nat, resource: string, ttl: int, token: string, elapsed: nat -> nat)
    requires NotHeld(ms, resource, token)
    ensures var o := LockSpec(ms, quorum, resource, ttl, token, elapsed);
      o.result.Some? ==> ReleaseAll(o.stores, resource, token) == ms
  {
    if ms != [] {
      RetryThenReleaseRestores(ms, quorum, resource, ttl, token, elapsed, RetryCount, 0);
    }
  }

  /**
   * When at least `quorum` instances are free and the first fan-out is
   * fast enough to leave a positive window, the first attempt succeeds.
   */
  lemma LockSucceedsWhenFree(ms: seq<Data>, quorum: nat, resource: string, ttl: int, token: string, elapsed: nat -> nat)
    requires ms != []
    requires Free(ms, resource) >= quorum
    requires Validity(ttl, elapsed(0)) > 0.0
    ensures LockSpec(ms, quorum, resource, ttl, token, elapsed)
      == Outcome(Some(LockResult(resource, token, Validity(ttl, elapsed(0)))), AcquireAll(ms, resource, token), 1)
  {
  }

  /**
   * Mutual exclusion: while a quorum of the instances holds the resource
   * with one token, an acquisition with any fresh token fails after all
   * RetryCount attempts and leaves every instance unchanged.
   */
  lemma MutualExclusion(ms: seq<Data>, resource: string, holder: string, ttl: int, token: string, elapsed: nat -> nat)
    requires ms != []
    requires Holding(ms, resource, holder) >= Quorum(|ms|)
    requires NotHeld(ms, resource, token)
    ensures LockSpec(ms, Quorum(|ms|), resource, ttl, token, elapsed) == Outcome(None, ms, RetryCount)
  {
    FreeAndHoldingDisjoint(ms, resource, holder);
    RetryFailsWhenTaken(ms, Quorum(|ms|), resource, ttl, token, elapsed, RetryCount, 0);
  }

  /**
   * Locking the same resource twice: once the first acquisition returned a
   * lock, a second one with another fresh token returns None and changes
   * nothing.
   */
  lemma SecondLockFails(ms: seq<Data>, resource: string, ttl: int, first: string, second: string,
                        elapsed1: nat -> nat, elapsed2: nat -> nat)
    requires NotHeld(ms, resource, first)
    requires LockSpec(ms, Quorum(|ms|), resource, ttl, first, elapsed1).result.Some?
    requires NotHeld(LockSpec(ms, Quorum(|ms|), resource, ttl, first, elapsed1).stores, resource, second)
    ensures var held := LockSpec(ms, Quorum(|ms|), resource, ttl, first, elapsed1).stores;
      LockSpec(held, Quorum(|ms|), resource, ttl, second, elapsed2) == Outcome(None, held, RetryCount)
  {
    var held := LockSpec(ms, Quorum(|ms|), resource, ttl, first, elapsed1).stores;
    LockOutcome(ms, Quorum(|ms|), resource, ttl, first, elapsed1);
    MutualExclusion(held, resource, first, ttl, second, elapsed2);
  }

  /**
   * The single-instance scenario: lock a resource absent from the one
   * instance (the first fan-out leaving a positive window), then release it
   * with the returned token, and the key is gone again.
   */
  lemma SingleInstanceLockRelease(m: Data, resource: string, token: string, elapsed: nat -> nat)
    requires resource !in m
    requires Validity(DefaultTtl, elapsed(0)) > 0.0
    ensures var o := LockSpec([m], 1, resource, DefaultTtl, token, elapsed);
      && o.result == Some(LockResult(resource, token, Validity(DefaultTtl, elapsed(0))))
      && Holds(o.stores[0], resource, token)
      && resource !in ReleaseAll(o.stores, resource, o.result.value.GetValue())[0]
  {
    LockSucceedsWhenFree([m], 1, resource, DefaultTtl, token, elapsed);
  }

  /** Every instance after the lease on `key` ran out (`RedisInstance.Expire`). */
  function ExpireAll(ms: seq<Data>, key: string): seq<Data>
  {
    seq(|ms|, i requires 0 <= i < |ms| => ms[i] - {key})
  }

  lemma {:induction false} ExpiredIsFree(ms: seq<Data>, key: string)
    ensures Free(ExpireAll(ms, key), key) == |ms|
  {
    if ms != [] {
      var init := ms[..|ms| - 1];
      assert ExpireAll(ms, key)[..|ms| - 1] == ExpireAll(init, key);
      ExpiredIsFree(init, key);
    }
  }

  /**
   * Once the lease on the resource has run out on every instance, an
   * acquisition whose first fan-out leaves a positive window succeeds at
   * once, whoever held the lock before.
   */
  lemma LockAfterExpiry(ms: seq<Data>, resource: string, ttl: int, token: string, elapsed: nat -> nat)
    requires ms != []
    requires Validity(ttl, elapsed(0)) > 0.0
    ensures LockSpec(ExpireAll(ms, resource), Quorum(|ms|), resource, ttl, token, elapsed).result
      == Some(LockResult(resource, token, Validity(ttl, elapsed(0))))
  {
    ExpiredIsFree(ms, resource);
    LockSucceedsWhenFree(ExpireAll(ms, resource), Quorum(|ms|), resource, ttl, token, elapsed);
  }

}
