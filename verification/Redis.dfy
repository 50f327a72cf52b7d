/** The key-value store behind the guards: string and counter keys, each with an optional expiry. */
module Redis {
  import opened Basics

  datatype Value = Str(text: string) | Count(n: nat)

  datatype Entry = Entry(value: Value, deadline: Option<int>)

  type Store = map<string, Entry>

  /** Whether a command executed at time t (in milliseconds) still finds the key. */
  predicate Live(s: Store, key: string, t: int) {
    key in s && (s[key].deadline.Some? ==> t < s[key].deadline.value)
  }

  /** GET */
  function Look(s: Store, key: string, t: int): Option<Value> {
    if Live(s, key, t) then Some(s[key].value) else None
  }

  /** The deadline SET gives: none without a ttl, and none for a ttl of 0, which is falsy. */
  function DeadlineAt(t: int, ttlSeconds: Option<nat>): Option<int> {
    if ttlSeconds.Some? && ttlSeconds.value != 0 then Some(t + ttlSeconds.value * 1000) else None
  }

  /** INCR */
  function Bumped(s: Store, key: string, t: int): Entry
    requires key in s ==> s[key].value.Count?
  {
    if Live(s, key, t) then Entry(Count(s[key].value.n + 1), s[key].deadline) else Entry(Count(1), None)
  }

  /** EXPIRE: a key that is gone stays gone. */
  function Expiring(s: Store, key: string, seconds: nat, t: int): Store {
    if Live(s, key, t) then s[key := Entry(s[key].value, Some(t + seconds * 1000))] else s - {key}
  }

  /** TTL, in seconds to the nearest: -2 for no key, -1 for a key that does not expire. */
  function SecondsLeft(s: Store, key: string, t: int): int {
    if !Live(s, key, t) then -2
    else if s[key].deadline.None? then -1
    else (s[key].deadline.value - t + 500) / 1000
  }

  predicate HasPrefix(prefix: string, key: string) { prefix <= key }

  function WithPrefix(s: Store, prefix: string): (ks: set<string>)
    ensures forall k :: k in ks <==> k in s && HasPrefix(prefix, k)
  {
    set k | k in s && HasPrefix(prefix, k)
  }

  function KeysIn(keys: seq<string>): set<string> { set k | k in keys }

  class RedisService {
    var store: Store

    constructor ()
      ensures store == map[]
    {
      store := map[];
    }

    method Get(key: string, t: int) returns (v: Option<Value>)
      ensures v == Look(store, key, t)
      ensures v.Some? <==> key in store && (store[key].deadline.Some? ==> t < store[key].deadline.value)
      ensures v.Some? ==> v.value == store[key].value
    {
      v := if Live(store, key, t) then Some(store[key].value) else None;
    }

    method Set(key: string, value: string, ttlSeconds: Option<nat>, t: int)
      modifies this
      ensures store == old(store)[key := Entry(Str(value), DeadlineAt(t, ttlSeconds))]
    {
      if ttlSeconds.Some? && ttlSeconds.value != 0 {
        store := store[key := Entry(Str(value), Some(t + ttlSeconds.value * 1000))];
      } else {
        store := store[key := Entry(Str(value), None)];
      }
    }

    method Incr(key: string, t: int) returns (count: nat)
      requires key in store ==> store[key].value.Count?
      modifies this
      ensures store == old(store)[key := Bumped(old(store), key, t)] && count == store[key].value.n
      ensures store[key] ==
        if key in old(store) && (old(store)[key].deadline.Some? ==> t < old(store)[key].deadline.value)
        then Entry(Count(old(store)[key].value.n + 1), old(store)[key].deadline) else Entry(Count(1), None)
    {
      if Live(store, key, t) {
        count := store[key].value.n + 1;
        store := store[key := Entry(Count(count), store[key].deadline)];
      } else {
        count := 1;
        store := store[key := Entry(Count(1), None)];
      }
    }

    method Expire(key: string, seconds: nat, t: int)
      modifies this
      ensures store == Expiring(old(store), key, seconds, t)
      ensures key in old(store) && (old(store)[key].deadline.Some? ==> t < old(store)[key].deadline.value) ==>
        store == old(store)[key := Entry(old(store)[key].value, Some(t + seconds * 1000))]
    {
      if Live(store, key, t) {
        store := store[key := store[key].(deadline := Some(t + seconds * 1000))];
      } else {
        store := store - {key};
      }
    }

    method Ttl(key: string, t: int) returns (seconds: int)
      ensures seconds == SecondsLeft(store, key, t)
      ensures key in store && store[key].deadline.Some? && t < store[key].deadline.value ==>
        seconds == (store[key].deadline.value - t + 500) / 1000
    {
      seconds := SecondsLeft(store, key, t);
    }

    /** DEL key ... */
    method Del(keys: seq<string>)
      modifies this
      ensures store == old(store) - KeysIn(keys)
    {
      store := store - KeysIn(keys);
    }

    /**
     SCAN pages arrive in any order and may repeat a key, but together they show every key with
     the prefix: all of those go, and nothing else does.
     */
    method DelByPrefix(prefix: string, pages: seq<seq<string>>)
      requires Sweep(store, prefix, pages)
      modifies this
      ensures store == old(store) - WithPrefix(old(store), prefix)
    {
      var cursor := 0;
      while cursor < |pages|
        invariant cursor <= |pages|
        invariant forall k :: k in store <==> k in old(store) && !Shown(pages, cursor, k)
        invariant forall k :: k in store ==> store[k] == old(store)[k]
      {
        assert forall k :: Shown(pages, cursor + 1, k) <==> Shown(pages, cursor, k) || k in pages[cursor];
        if |pages[cursor]| > 0 {
          Del(pages[cursor]);
        }
        cursor := cursor + 1;
      }
    }
  }

  /** Whether one of the first n pages shows the key. */
  predicate Shown(pages: seq<seq<string>>, n: nat, key: string)
    requires n <= |pages|
  {
    exists i :: 0 <= i < n && key in pages[i]
  }

  /** What SCAN promises of its pages: every key with the prefix, and no other. */
  ghost predicate Sweep(s: Store, prefix: string, pages: seq<seq<string>>) {
    && (forall k :: k in s && HasPrefix(prefix, k) ==> Shown(pages, |pages|, k))
    && (forall k :: Shown(pages, |pages|, k) ==> HasPrefix(prefix, k))
  }
}
