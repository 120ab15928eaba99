/**
 * The lock client: a fixed list of Redis instances and the quorum derived
 * from the configured server list, with the acquire and release fan-outs.
 */
module Coordinator {

  import opened Wrappers
  import opened Results
  import opened Stores
  import opened Protocol
  import Properties

  const DefaultHost: string := "127.0.0.1"
  const DefaultPort: int := 6379
  const DefaultDatabase: int := 0

  /** Decimal digits of `n`, as Java's string concatenation prints it. */
  function Digits(n: nat): (s: string)
    ensures |s| >= 1
    ensures forall c :: c in s ==> '0' <= c <= '9'
  {
    if n < 10 then [('0' as int + n) as char]
    else Digits(n / 10) + [('0' as int + n % 10) as char]
  }

  function IntToString(i: int): string
  {
    if i < 0 then "-" + Digits(-i) else Digits(i)
  }

  /** Java's `trim().length() == 0`: every character is at most a space. */
  predicate Blank(s: string)
  {
    forall c :: c in s ==> c <= ' '
  }

  /** The one server URI the single-host constructors configure. */
  function SingleHostUri(host: string, port: int, password: string, database: int): (uri: string)
    ensures !Blank(password) ==> "redis://:" + password + "@" + host + ":" <= uri
    ensures Blank(password) ==> "redis://" + host + ":" <= uri
  {
    if !Blank(password) then
      "redis://:" + password + "@" + host + ":" + IntToString(port) + "/" + IntToString(database)
    else
      "redis://" + host + ":" + IntToString(port) + "/" + IntToString(database)
  }

  class RedLock {
    /** The configured server URIs. */
    const servers: seq<string>
    /** Instances that must grant a lock. */
    const quorum: nat
    /** One connection per configured server, or none when they could not be built. */
    const instances: seq<RedisInstance>

    /**
     * The instances are distinct, and when there are any, the quorum is a
     * majority of them (one per configured server).
     */
    ghost predicate Valid()
    {
      && Distinct(instances)
      && (instances == [] || quorum == Quorum(|instances|))
    }

    /** `RedLock(host, port, password, database)`: one server, quorum one. */
    constructor SingleHost(host: string, port: int, password: string, database: int,
                           connected: seq<RedisInstance>)
      requires |connected| <= 1
      ensures Valid()
      ensures servers == [SingleHostUri(host, port, password, database)]
      ensures quorum == 1 && instances == connected
    {
      servers := [SingleHostUri(host, port, password, database)];
      quorum := 1;
      instances := connected;
    }

    /** `RedLock()`: the local server on the default port and database. */
    constructor Default(connected: seq<RedisInstance>)
      requires |connected| <= 1
      ensures Valid()
      ensures servers == [SingleHostUri(DefaultHost, DefaultPort, "", DefaultDatabase)]
      ensures quorum == 1 && instances == connected
    {
      servers := [SingleHostUri(DefaultHost, DefaultPort, "", DefaultDatabase)];
      quorum := 1;
      instances := connected;
    }

    /** `RedLock(host)`. */
    constructor WithHost(host: string, connected: seq<RedisInstance>)
      requires |connected| <= 1
      ensures Valid()
      ensures servers == [SingleHostUri(host, DefaultPort, "", DefaultDatabase)]
      ensures quorum == 1 && instances == connected
    {
      servers := [SingleHostUri(host, DefaultPort, "", DefaultDatabase)];
      quorum := 1;
      instances := connected;
    }

    /** `RedLock(host, port)`. */
    constructor WithHostPort(host: string, port: int, connected: seq<RedisInstance>)
      requires |connected| <= 1
      ensures Valid()
      ensures servers == [SingleHostUri(host, port, "", DefaultDatabase)]
      ensures quorum == 1 && instances == connected
    {
      servers := [SingleHostUri(host, port, "", DefaultDatabase)];
      quorum := 1;
      instances := connected;
    }

    /** `RedLock(host, port, password)`. */
    constructor WithPassword(host: string, port: int, password: string, connected: seq<RedisInstance>)
      requires |connected| <= 1
      ensures Valid()
      ensures servers == [SingleHostUri(host, port, password, DefaultDatabase)]
      ensures quorum == 1 && instances == connected
    {
      servers := [SingleHostUri(host, port, password, DefaultDatabase)];
      quorum := 1;
      instances := connected;
    }

    /** `RedLock(host, port, database)`. */
    constructor WithDatabase(host: string, port: int, database: int, connected: seq<RedisInstance>)
      requires |connected| <= 1
      ensures Valid()
      ensures servers == [SingleHostUri(host, port, "", database)]
      ensures quorum == 1 && instances == connected
    {
      servers := [SingleHostUri(host, port, "", database)];
      quorum := 1;
      instances := connected;
    }

    /**
     * `RedLock(String[] servers)`: the quorum is a majority of the
     * configured servers. `connected` holds one instance per server, or is
     * empty when the connections could not be built.
     */
    constructor Cluster(uris: seq<string>, connected: seq<RedisInstance>)
      requires connected == [] || |connected| == |uris|
      requires Distinct(connected)
      ensures Valid()
      ensures servers == uris && quorum == Quorum(|uris|) && instances == connected
    {
      servers := uris;
      quorum := Quorum(|uris|);
      instances := connected;
    }

    /**
     * Acquire `resource` for `ttl` milliseconds with the lock token `token`,
     * minted once for the whole call. `elapsed(k)` is how long the fan-out of
     * attempt `k` took. Returns the lock, or None once every attempt failed
     * or when there are no instances.
     */
    method Lock(resource: string, ttl: int, token: string, elapsed: nat -> nat)
      returns (r: Option<LockResult>)
      requires Valid()
      requires ttl > 0
      modifies instances
      ensures r == LockSpec(old(Snapshot(instances)), quorum, resource, ttl, token, elapsed).result
      ensures Snapshot(instances) == LockSpec(old(Snapshot(instances)), quorum, resource, ttl, token, elapsed).stores
    {
      if |instances| == 0 {
        return None;
      }
      ghost var initial := Snapshot(instances);
      var retry: nat := RetryCount;
      var attempt: nat := 0;
      while retry > 0
        invariant retry <= RetryCount && attempt + retry == RetryCount
        invariant retry > 0 ==>
          LockSpec(initial, quorum, resource, ttl, token, elapsed)
            == Retry(Snapshot(instances), quorum, resource, ttl, token, elapsed, retry, attempt)
        invariant retry == 0 ==>
          LockSpec(initial, quorum, resource, ttl, token, elapsed)
            == Outcome(None, Snapshot(instances), RetryCount)
      {
        ghost var before := Snapshot(instances);
        var n := SetOnAll(resource, token, ttl);
        var validity := Validity(ttl, elapsed(attempt));
        if n >= quorum && validity > 0.0 {
          return Some(LockResult(resource, token, validity));
        }
        Release(resource, token);
        retry := retry - 1;
        attempt := attempt + 1;
      }
      return None;
    }

    /**
     * One fan-out of SET NX to every instance, in order; returns how many
     * instances granted it (replied "OK").
     */
    method SetOnAll(resource: string, token: string, ttl: int) returns (n: nat)
      requires Valid()
      modifies instances
      ensures n == Free(old(Snapshot(instances)), resource)
      ensures Snapshot(instances) == AcquireAll(old(Snapshot(instances)), resource, token)
    {
      ghost var before := Snapshot(instances);
      n := 0;
      var i := 0;
      while i < |instances|
        invariant 0 <= i <= |instances|
        invariant n == Free(before[..i], resource)
        invariant forall j :: 0 <= j < i ==> instances[j].data == TrySet(before[j], resource, token)
        invariant forall j :: i <= j < |instances| ==> instances[j].data == before[j]
      {
        var reply := instances[i].SetNx(resource, token, ttl);
        assert before[..i + 1][..i] == before[..i];
        if reply == Some("OK") {
          n := n + 1;
        }
        i := i + 1;
      }
      assert before[..i] == before;
    }

    /** `lock(resource)`: acquire with the default lease of 60 seconds. */
    method LockWithDefaultTtl(resource: string, token: string, elapsed: nat -> nat)
      returns (r: Option<LockResult>)
      requires Valid()
      modifies instances
      ensures r == LockSpec(old(Snapshot(instances)), quorum, resource, DefaultTtl, token, elapsed).result
      ensures Snapshot(instances) == LockSpec(old(Snapshot(instances)), quorum, resource, DefaultTtl, token, elapsed).stores
    {
      r := Lock(resource, DefaultTtl, token, elapsed);
    }

    /**
     * Run the release script for `resource` and `token` on every instance,
     * ignoring the replies; nothing happens when there are no instances.
     */
    method Release(resource: string, token: string)
      requires Valid()
      modifies instances
      ensures Snapshot(instances) == ReleaseAll(old(Snapshot(instances)), resource, token)
    {
      if |instances| == 0 {
        return;
      }
      ghost var before := Snapshot(instances);
      var i := 0;
      while i < |instances|
        invariant 0 <= i <= |instances|
        invariant forall j :: 0 <= j < i ==> instances[j].data == CompareAndDelete(before[j], resource, token)
        invariant forall j :: i <= j < |instances| ==> instances[j].data == before[j]
      {
        var _ := instances[i].EvalRelease(resource, token);
        i := i + 1;
      }
    }
  }

  /**
   * Mutual exclusion for a lock client: while a quorum of its instances
   * holds the resource under some token, its `Lock` with a fresh token
   * (whose result and new key spaces are this `LockSpec`) returns None
   * after all RetryCount attempts and changes no instance.
   */
  lemma LockExcludedWhileHeld(r: RedLock, resource: string, holder: string, ttl: int, token: string,
                              elapsed: nat -> nat)
    requires r.Valid() && r.instances != []
    requires Holding(Snapshot(r.instances), resource, holder) >= r.quorum
    requires NotHeld(Snapshot(r.instances), resource, token)
    ensures LockSpec(Snapshot(r.instances), r.quorum, resource, ttl, token, elapsed)
      == Outcome(None, Snapshot(r.instances), RetryCount)
  {
    var ms := Snapshot(r.instances);
    assert |ms| == |r.instances|;
    Properties.MutualExclusion(ms, resource, holder, ttl, token, elapsed);
  }

}
