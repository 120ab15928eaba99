/**
 * One Redis instance, seen only through the two commands the lock
 * protocol sends it: SET with NX (write if absent) and the Lua script that
 * deletes a key only when it still holds the caller's token.
 */
module Stores {

  import opened Wrappers

  /** The key space of one instance. */
  type Data = map<string, string>

  /**
   * The key space after `SET key value NX`: the key is always present
   * afterwards, an existing key is never overwritten, an absent one gets
   * the value, and no other key changes.
   */
  function TrySet(m: Data, key: string, value: string): (r: Data)
    ensures key in r
    ensures key in m ==> r == m
    ensures key !in m ==> Holds(r, key, value)
    ensures r - {key} == m - {key}
  {
    if key in m then m else m[key := value]
  }

  /** Whether `m` holds `key` with exactly the value `token`. */
  predicate Holds(m: Data, key: string, token: string)
  {
    key in m && m[key] == token
  }

  /**
   * The key space after the release script: GET, and DEL only on a match.
   * The token is never held afterwards, a key holding another value (or no
   * key) is left alone, and no other key changes.
   */
  function CompareAndDelete(m: Data, key: string, token: string): (r: Data)
    ensures !Holds(r, key, token)
    ensures Holds(m, key, token) ==> key !in r
    ensures !Holds(m, key, token) ==> r == m
    ensures r - {key} == m - {key}
  {
    if Holds(m, key, token) then m - {key} else m
  }

  class RedisInstance {
    var data: Data

    constructor (initial: Data)
      ensures data == initial
    {
      data := initial;
    }

    /**
     * `SET key value NX PX ttl`: the reply is "OK" when the key was absent
     * and has been written, and nil when the key already existed.
     */
    method SetNx(key: string, value: string, ttl: int) returns (reply: Option<string>)
      modifies this
      ensures reply == (if key in old(data) then None else Some("OK"))
      ensures data == TrySet(old(data), key, value)
    {
      if key in data {
        reply := None;
      } else {
        data := data[key := value];
        reply := Some("OK");
      }
    }

    /**
     * The release script: if GET key equals the token then DEL key (whose
     * reply is the number of keys removed, 1) else return 0.
     */
    method EvalRelease(key: string, token: string) returns (deleted: int)
      modifies this
      ensures deleted == (if Holds(old(data), key, token) then 1 else 0)
      ensures data == CompareAndDelete(old(data), key, token)
    {
      if key in data && data[key] == token {
        data := data - {key};
        deleted := 1;
      } else {
        deleted := 0;
      }
    }

    /** The key's PX lease running out: an event outside the lock client. */
    method Expire(key: string)
      modifies this
      ensures data == old(data) - {key}
    {
      data := data - {key};
    }
  }

  /** The key spaces of a list of instances, in order. */
  function Snapshot(ss: seq<RedisInstance>): seq<Data>
    reads ss
  {
    seq(|ss|, i reads ss requires 0 <= i < |ss| => ss[i].data)
  }

  /** No instance appears twice in the list. */
  predicate Distinct(ss: seq<RedisInstance>)
  {
    forall i, j :: 0 <= i < j < |ss| ==> ss[i] != ss[j]
  }

}
