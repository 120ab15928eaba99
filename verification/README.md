# Redlock client, modelled in Dafny

This project models the core of a Java Redlock client: a distributed lock
spread over N independent Redis instances. To acquire a resource, the client
sends `SET resource token NX PX ttl` to every instance and counts the
instances that granted it. It then takes the time the fan-out took and a
clock-drift allowance off the lease. The lock is accepted when a quorum
granted it and the remaining validity window is positive. Otherwise the
client runs a compare-and-delete Lua script for its token on every instance
(the rollback) and retries, up to three attempts in all. Release sends the
same script to every instance, and the script deletes the key only where it
still holds the caller's token.

Modules:

- `Stores` (`stores.dfy`): one Redis instance as a class over a
  `map<string, string>`. It has SET NX, the release script and lease expiry
  as methods, plus the pure functions `TrySet` and `CompareAndDelete` that
  specify those methods.
- `Results` (`lock_result.dfy`): the immutable `LockResult` and its getters.
- `Protocol` (`protocol.dfy`): the protocol as functions of the instances'
  key spaces. It holds the quorum formula, the drift and validity arithmetic
  and the retry jitter. `Attempt` is one fan-out with its accept-or-rollback
  decision, `Retry` is the do-while countdown, and `LockSpec` is a whole
  acquisition.
- `Coordinator` (`coordinator.dfy`): the `RedLock` class, with its
  constructors and the `Lock` and `Release` fan-out loops. Each of these is
  proved to compute exactly `LockSpec` or `ReleaseAll`.
- `Properties` (`properties.dfy`): what the protocol promises, proved about
  those functions.

In three places the code departs from the usual description of Redlock,
and the model follows the code:

- The quorum is `min(N, N / 2 + 1)`.
- One token is minted per call and reused across its retries. It is not
  minted anew for each attempt.
- A client exception during the fan-out is not counted as a refusal. It
  leaves the Java method (see Left out).

The lock token and the clock are parameters of `Lock`. `token` stands for
the random UUID. `elapsed(k)` is the number of milliseconds the fan-out of
attempt `k` took.

## Model

| member | source | states |
|---|---|---|
| `Protocol.Quorum` | src/main/java/redis/lock/redlock/RedLock.java:63-67 | for N >= 1 the quorum lies in [1, N] and is the smallest strict majority (N < 2q and 2(q - 1) <= N); with no servers it is 0 |
| `Properties.QuorumExamples` | src/main/java/redis/lock/redlock/RedLock.java:66 | N = 1, 2, 3, 4, 5 give quorum 1, 2, 2, 3, 3 |
| `Coordinator.RedLock.Cluster` | src/main/java/redis/lock/redlock/RedLock.java:63-67 | the server array is kept as given and the quorum is `Quorum` of its length |
| `Coordinator.RedLock.SingleHost` | src/main/java/redis/lock/redlock/RedLock.java:54-61 | exactly one server URI is configured and the quorum is 1 |
| `Coordinator.RedLock.Default` | src/main/java/redis/lock/redlock/RedLock.java:34-36 | one server at 127.0.0.1:6379, database 0, no password, quorum 1 |
| `Coordinator.RedLock.WithHost` | src/main/java/redis/lock/redlock/RedLock.java:38-40 | one server at the given host on port 6379, quorum 1 |
| `Coordinator.RedLock.WithHostPort` | src/main/java/redis/lock/redlock/RedLock.java:42-44 | one server at the given host and port with no password, quorum 1 |
| `Coordinator.RedLock.WithPassword` | src/main/java/redis/lock/redlock/RedLock.java:46-48 | one server with the given password and database 0, quorum 1 |
| `Coordinator.RedLock.WithDatabase` | src/main/java/redis/lock/redlock/RedLock.java:50-52 | one server with the given database and no password, quorum 1 |
| `Coordinator.SingleHostUri` | src/main/java/redis/lock/redlock/RedLock.java:55-58 | a non-blank password yields a `redis://:password@host:` URI, a blank one a `redis://host:` URI |
| `Protocol.Validity` | src/main/java/redis/lock/redlock/RedLock.java:122-123 | a positive window is always strictly below the lease and needs a positive lease; for a non-negative lease at least the fixed 2 ms allowance is taken off |
| `Protocol.JitterDelay` | src/main/java/redis/lock/redlock/RedLock.java:131 | the pause between attempts lies in [100, 200) ms |
| `Stores.RedisInstance.SetNx` | src/main/java/redis/lock/redlock/RedLock.java:116-117 | the reply is "OK" exactly when the key was absent; the key space becomes `TrySet` of the old one |
| `Stores.RedisInstance.EvalRelease` | src/main/java/redis/lock/redlock/RedLock.java:21-25 | the script returns 1 and deletes the key when it holds the token, and returns 0 and changes nothing otherwise |
| `Stores.RedisInstance.Expire` | src/main/java/redis/lock/redlock/RedLock.java:116 | the PX lease running out removes the key and nothing else |
| `Stores.TrySet` | src/main/java/redis/lock/redlock/RedLock.java:116 | after SET NX the key is present; an existing key is never overwritten, an absent one holds the value, and no other key changes |
| `Stores.CompareAndDelete` | src/main/java/redis/lock/redlock/RedLock.java:21-25 | after the script the token is never held; a key holding it is gone, a key holding another value (or no key) is unchanged, and no other key changes |
| `Protocol.Drift` | src/main/java/redis/lock/redlock/RedLock.java:122 | for a non-negative lease the drift allowance is at least the fixed 2 ms and at most 2 ms plus the lease |
| `Protocol.AcquireAll` | src/main/java/redis/lock/redlock/RedLock.java:115-120 | after the SET NX fan-out every free instance holds the token and every instance that had the key is unchanged |
| `Protocol.ReleaseAll` | src/main/java/redis/lock/redlock/RedLock.java:164-166 | after the release fan-out no instance holds the token; those that held it lost the key and all others are unchanged |
| `Protocol.Attempt` | src/main/java/redis/lock/redlock/RedLock.java:111-129 | an attempt returns a lock exactly when at least a quorum was free and the window is positive; the lock carries the resource, the token and that window, in (0, ttl), and is held by a quorum; a failed attempt leaves no instance holding the token |
| `Protocol.Retry` | src/main/java/redis/lock/redlock/RedLock.java:108-139 | the countdown keeps the instance count and makes between 1 and `retry` attempts, all of them when no lock results |
| `Protocol.LockSpec` | src/main/java/redis/lock/redlock/RedLock.java:100-142 | with no instances: null, untouched, no attempt; otherwise 1 to 3 attempts, exactly 3 when the result is null |
| `Coordinator.RedLock.SetOnAll` | src/main/java/redis/lock/redlock/RedLock.java:111-120 | the counter `n` is the number of instances that were free, and every instance's new key space is `AcquireAll` of its old one |
| `Coordinator.LockExcludedWhileHeld` | src/main/java/redis/lock/redlock/RedLock.java:115-129 | for a valid client, while a quorum of its instances hold the resource under another token, its `Lock` with a fresh token returns null after 3 attempts and changes no instance |
| `Coordinator.RedLock.Lock` | src/main/java/redis/lock/redlock/RedLock.java:100-142 | the result and the instances' new key spaces are exactly those of `LockSpec` on the old key spaces |
| `Coordinator.RedLock.LockWithDefaultTtl` | src/main/java/redis/lock/redlock/RedLock.java:87-89 | the same as `Lock` with a 60000 ms lease |
| `Coordinator.RedLock.Release` | src/main/java/redis/lock/redlock/RedLock.java:157-167 | the instances' new key spaces are exactly `ReleaseAll` of the old ones; with no instances nothing changes |
| `Properties.SetNxNeverOverwrites` | src/main/java/redis/lock/redlock/RedLock.java:116-119 | SET NX leaves a present key unchanged, writes the value to an absent key, and never touches another key |
| `Properties.CompareAndDeleteOnlyOwnToken` | src/main/java/redis/lock/redlock/RedLock.java:21-25 | the script removes the key only when it holds the token, and leaves every other key alone |
| `Properties.ReleaseOnlyOwnToken` | src/main/java/redis/lock/redlock/RedLock.java:164-166 | afterwards no instance holds the token; instances that held it lose the key; instances with another value or none are unchanged |
| `Properties.ReleaseIdempotent` | src/main/java/redis/lock/redlock/RedLock.java:164-166 | releasing twice equals releasing once |
| `Properties.ReleaseFreshTokenNoOp` | src/main/java/redis/lock/redlock/RedLock.java:157-167 | releasing a token that no instance holds changes nothing |
| `Properties.RollbackRestores` | src/main/java/redis/lock/redlock/RedLock.java:115-129 | with a fresh token, SET NX on every instance followed by the rollback restores every instance exactly |
| `Protocol.AcquireHolding` | src/main/java/redis/lock/redlock/RedLock.java:115-120 | after the fan-out, the instances holding the token are those that granted it (the counter `n`) plus those that already held it |
| `Properties.RetryOutcome` | src/main/java/redis/lock/redlock/RedLock.java:108-139 | the countdown makes between 1 and `retry` attempts, and all `retry` of them when it ends without a lock; a returned lock carries the resource and the token, its validity lies in (0, ttl), and at least a quorum of instances hold it |
| `Properties.RetryFailureRestores` | src/main/java/redis/lock/redlock/RedLock.java:125-139 | with a fresh token, attempts that end without a lock leave every instance as they found it |
| `Properties.RetryFailsWhenTaken` | src/main/java/redis/lock/redlock/RedLock.java:108-141 | with a fresh token and fewer free instances than the quorum, every attempt fails, all attempts are used, nothing changes, and the result is null |
| `Properties.RetryThenReleaseRestores` | src/main/java/redis/lock/redlock/RedLock.java:108-139 | with a fresh token, releasing the token of a returned lock restores every instance |
| `Properties.LockOutcome` | src/main/java/redis/lock/redlock/RedLock.java:100-142 | with no instances the result is null and nothing is touched; otherwise 1 to 3 attempts are made, all 3 when the result is null, and a returned lock has the requested resource, the call's token, a validity in (0, ttl), and is held by at least a quorum |
| `Properties.LockFailureRollsBack` | src/main/java/redis/lock/redlock/RedLock.java:125-141 | an acquisition that returns null with a fresh token leaves every instance as it found it |
| `Properties.LockThenReleaseRestores` | src/main/java/redis/lock/redlock/RedLock.java:164-166 | with a fresh token, releasing the token of a successful acquisition removes every key it wrote and restores every instance |
| `Properties.LockSucceedsWhenFree` | src/main/java/redis/lock/redlock/RedLock.java:115-126 | when a quorum of instances is free and the first fan-out leaves a positive window, the first attempt returns the lock and writes the token to every free instance |
| `Properties.MutualExclusion` | src/main/java/redis/lock/redlock/RedLock.java:115-129 | while a quorum of instances holds the resource under one token, an acquisition with any fresh token returns null after 3 attempts and changes nothing |
| `Properties.SecondLockFails` | src/test/java/redis/lock/redlock/tests/RedLockTest.java:30-35 | after a successful lock, a second lock of the same resource with another fresh token returns null and changes nothing |
| `Properties.SingleInstanceLockRelease` | src/test/java/redis/lock/redlock/tests/RedLockTest.java:37-43 | on one instance, a lock of an absent resource succeeds, and releasing with the returned value removes the key |
| `Properties.LockAfterExpiry` | src/main/java/redis/lock/redlock/RedLock.java:116 | once the lease has run out on every instance, the first attempt of a new acquisition succeeds |
| `Results.GettersReturnConstructorArguments` | src/main/java/redis/lock/redlock/LockResult.java:9-25 | each getter returns exactly what the constructor was given |
| `Results.GettersDetermineResult` | src/main/java/redis/lock/redlock/LockResult.java:5-7 | the three fields are all there is to a result: equal getters mean equal results, and a datatype value never changes |

## Left out

- Connection set-up (`init`, lines 69-80). The Jedis clients, URI parsing and the `URISyntaxException` path are not modelled. Each constructor is given the instance list directly, and an empty list stands for a set-up that failed.
- Two server URIs that name the same Redis server are not modelled: the instances must be distinct objects.
- `synchronized` on `init`, `lock0`, `release0` and `getRandomUUID`: the model is sequential.
- `UUID.randomUUID()`: the token is a parameter of `Lock`.
- `System.currentTimeMillis()`: the fan-out time of each attempt is the parameter `elapsed`. It is a natural number, so a clock that steps backwards is not modelled.
- `Thread.sleep` and its interruption: `Lock` does not pause. `JitterDelay` gives only the length of the pause for a draw from `Math.random()`.
- Lease expiry happens inside Redis. It is the external event `RedisInstance.Expire`, and the TTL passed to SET is not stored.
- Coordinator.RedLock.Lock: requires `ttl > 0`. Redis rejects a non-positive PX with an error, which the Java client raises as an exception.
- Exceptions from the client (network errors, Redis errors) are not modelled. In the source they leave `lock0` or `release0` in the middle of the fan-out.
- Protocol.JitterDelay: computed exactly over `real`. In `double` arithmetic the largest draw, 1 - 2^-53, scales to 99.99999999999999, and adding 100 rounds to 200.0. So the source can pause for 200 ms, one more than the stated range [100, 200).
- Protocol.Validity: computed exactly over `real`. The rounding of `ttl * 0.01` in `double` and the 64-bit subtraction of timestamps are not modelled.
- Lease lengths are unbounded integers, not Java's 32-bit `int`.
- A `null` password is not modelled, because strings here are never null. A blank password is.
- Coordinator.SingleHostUri: the contract states the URI's prefix (scheme, password and host), not the decimal port and database that follow.
- SLF4J logging.
