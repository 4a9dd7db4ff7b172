/**
 The key store: values with an optional expiry time, and sets. `Store` is its
 contents as a value; `RedisService` keeps it in place. Each family of keys is a
 map of its own. Times are milliseconds, time-to-live is in seconds.
 */
module Redis {
  import opened Base

  datatype Entry<+V> = Entry(value: V, expiresAt: Option<int>)

  /** An entry is gone from the moment its time has come. */
  predicate Alive<V>(e: Entry<V>, now: int) {
    e.expiresAt.Some? ==> now < e.expiresAt.value
  }

  datatype Store<K(==), V, S(==), M(==)> = Store(entries: map<K, Entry<V>>, sets: map<S, set<M>>) {
    function Get(k: K, now: int): Option<V> {
      if k in entries && Alive(entries[k], now) then Some(entries[k].value) else None
    }

    /** Without a (non-zero) time-to-live the key never expires, whatever it had before. */
    function Put(k: K, v: V, ttl: Option<nat>, now: int): Store<K, V, S, M> {
      var expiresAt := if ttl.Some? && ttl.value != 0 then Some(now + 1000 * ttl.value) else None;
      this.(entries := entries[k := Entry(v, expiresAt)])
    }

    function Del(k: K): Store<K, V, S, M> {
      this.(entries := entries - {k})
    }

    function Members(s: S): set<M> {
      if s in sets then sets[s] else {}
    }

    function Sadd(s: S, m: M): Store<K, V, S, M> {
      this.(sets := sets[s := Members(s) + {m}])
    }

    function Srem(s: S, m: M): Store<K, V, S, M> {
      this.(sets := sets[s := Members(s) - {m}])
    }
  }

  class RedisService<K(==), V(0), S(==), M(==)> {
    var entries: map<K, Entry<V>>
    var sets: map<S, set<M>>

    ghost function View(): Store<K, V, S, M>
      reads this
    {
      Store(entries, sets)
    }

    constructor ()
      ensures View() == Store(map[], map[])
    {
      entries, sets := map[], map[];
    }

    method Get(k: K, now: int) returns (r: Option<V>)
      ensures r == View().Get(k, now)
    {
      if k in entries && Alive(entries[k], now) {
        r := Some(entries[k].value);
      } else {
        r := None;
      }
    }

    method Set(k: K, v: V, ttlSeconds: Option<nat>, now: int)
      modifies this`entries
      ensures View() == old(View()).Put(k, v, ttlSeconds, now)
    {
      if ttlSeconds.Some? && ttlSeconds.value != 0 {
        entries := entries[k := Entry(v, Some(now + 1000 * ttlSeconds.value))];
      } else {
        entries := entries[k := Entry(v, None)];
      }
    }

    method Del(k: K)
      modifies this`entries
      ensures View() == old(View()).Del(k)
    {
      entries := entries - {k};
    }

    method Smembers(s: S) returns (members: set<M>)
      ensures members == View().Members(s)
    {
      members := if s in sets then sets[s] else {};
    }

    method Sadd(s: S, m: M)
      modifies this`sets
      ensures View() == old(View()).Sadd(s, m)
    {
      var members := Smembers(s);
      sets := sets[s := members + {m}];
    }

    method Srem(s: S, m: M)
      modifies this`sets
      ensures View() == old(View()).Srem(s, m)
    {
      var members := Smembers(s);
      sets := sets[s := members - {m}];
    }
  }

  /** A stored value is there until its time to live is over, and nothing else changes. */
  lemma PutThenGet<K, V, S, M>(c: Store<K, V, S, M>, k: K, v: V, ttl: Option<nat>, now: int, other: K, later: int)
    ensures var c' := c.Put(k, v, ttl, now);
            && c'.Get(k, later)
               == (if ttl.Some? && ttl.value > 0 && later - now >= 1000 * ttl.value then None else Some(v))
            && (other != k ==> c'.Get(other, later) == c.Get(other, later))
            && c'.sets == c.sets
            && c'.Del(k).Get(k, later) == None && (k !in c.entries ==> c'.Del(k) == c)
  {
    if k !in c.entries {
      assert c.entries[k := c.Put(k, v, ttl, now).entries[k]] - {k} == c.entries;
    }
  }

  /** Adding makes a member, removing takes it away, and other members and sets stay. */
  lemma AddThenRemove<K, V, S, M>(c: Store<K, V, S, M>, s: S, m: M, t: S, x: M)
    ensures (x in c.Sadd(s, m).Members(t) <==> x in c.Members(t) || (t == s && x == m))
    ensures (x in c.Srem(s, m).Members(t) <==> x in c.Members(t) && !(t == s && x == m))
    ensures c.Sadd(s, m).entries == c.Srem(s, m).entries == c.entries
  {
  }
}
