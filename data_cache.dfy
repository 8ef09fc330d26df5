/**
 * The in-memory tier of the data cache (data/data_cache.py): a dictionary of
 * cached values plus an access-order list, most recently used last, from
 * whose front entries are evicted once the dictionary holds more than
 * `max_memory_items` of them.
 */
module DataCaches {
  import opened Common

  // ---- the access-order list ----

  ghost predicate NoDup(s: seq<string>)
  {
    forall i, j | 0 <= i < j < |s| :: s[i] != s[j]
  }

  /** The access order lists exactly the cached keys. */
  ghost predicate Tracks<V>(m: map<string, V>, order: seq<string>)
  {
    (forall k | k in m :: k in order) && (forall i | 0 <= i < |order| :: order[i] in m)
  }

  /** The index of the first occurrence of `k`, or `|s|` when there is none. */
  function IndexOf(s: seq<string>, k: string): (i: nat)
    ensures i <= |s|
    ensures i < |s| <==> k in s
    ensures i < |s| ==> s[i] == k
    ensures k !in s[..i]
    decreases |s|
  {
    if s == [] then 0
    else if s[0] == k then 0
    else
      var i := 1 + IndexOf(s[1..], k);
      assert s[..i] == [s[0]] + s[1..][..i - 1];
      i
  }

  /** `list.remove(k)`: drop the first occurrence of `k`, if there is one. */
  function RemoveFirst(s: seq<string>, k: string): (r: seq<string>)
    ensures k !in s ==> r == s
    ensures k in s ==> |r| == |s| - 1
  {
    var i := IndexOf(s, k);
    if i < |s| then s[..i] + s[i + 1..] else s
  }

  /** Removing one key from a list without duplicates keeps it so, drops exactly that key and keeps the rest in order. */
  lemma RemoveFirstNoDup(s: seq<string>, k: string)
    requires NoDup(s)
    ensures var r := RemoveFirst(s, k); NoDup(r) && k !in r
    ensures var r := RemoveFirst(s, k); forall x :: x in r <==> x in s && x != k
  {
    var r := RemoveFirst(s, k);
    if k in s {
      var i := IndexOf(s, k);
      forall a, b | 0 <= a < b < |r| ensures r[a] != r[b] {
        var a', b' := if a < i then a else a + 1, if b < i then b else b + 1;
        assert r[a] == s[a'] && r[b] == s[b'];
      }
      forall x ensures x in r <==> x in s && x != k {
        if x in r {
          var a :| 0 <= a < |r| && r[a] == x;
          assert x == s[if a < i then a else a + 1];
        }
        if x in s && x != k {
          var a :| 0 <= a < |s| && s[a] == x;
          assert a != i;
          assert x == r[if a < i then a else a - 1];
        }
      }
    }
  }

  /** Every occurrence of `k` filtered out, the other keys kept in order: `[x for x in s if x != k]`. */
  function Without(s: seq<string>, k: string): (r: seq<string>)
    decreases |s|
  {
    if s == [] then [] else (if s[0] == k then [] else [s[0]]) + Without(s[1..], k)
  }

  lemma {:induction false} WithoutAbsent(s: seq<string>, k: string)
    requires k !in s
    ensures Without(s, k) == s
    decreases |s|
  {
    if s != [] {
      WithoutAbsent(s[1..], k);
    }
  }

  lemma NoDupTail(s: seq<string>)
    requires s != [] && NoDup(s)
    ensures NoDup(s[1..]) && s[0] !in s[1..]
  {
    var t := s[1..];
    forall a, b | 0 <= a < b < |t| ensures t[a] != t[b] {
      assert t[a] == s[a + 1] && t[b] == s[b + 1];
    }
    forall j | 0 <= j < |t| ensures t[j] != s[0] {
      assert t[j] == s[j + 1];
    }
  }

  /** Past a different head, removing the first `k` happens in the tail. */
  lemma RemoveFirstCons(s: seq<string>, k: string)
    requires s != [] && s[0] != k
    ensures RemoveFirst(s, k) == [s[0]] + RemoveFirst(s[1..], k)
  {
    var t := s[1..];
    var i := IndexOf(s, k);
    assert IndexOf(t, k) == i - 1;
    if i < |s| {
      assert RemoveFirst(t, k) == t[..i - 1] + t[i..];
      assert s[..i] == [s[0]] + t[..i - 1];
      assert s[i + 1..] == t[i..];
      assert RemoveFirst(s, k) == [s[0]] + t[..i - 1] + t[i..];
    } else {
      assert RemoveFirst(t, k) == t;
      assert s == [s[0]] + t;
    }
  }

  /** On a list without duplicates, `list.remove(k)` is the filter that keeps every other key in its order. */
  lemma {:induction false} RemoveFirstIsWithout(s: seq<string>, k: string)
    requires NoDup(s)
    ensures RemoveFirst(s, k) == Without(s, k)
    decreases |s|
  {
    if s != [] {
      NoDupTail(s);
      if s[0] == k {
        WithoutAbsent(s[1..], k);
      } else {
        RemoveFirstIsWithout(s[1..], k);
        RemoveFirstCons(s, k);
      }
    }
  }

  /** `_update_access_order(k)`: move `k` to the end, adding it if absent. */
  function Touch(order: seq<string>, k: string): (r: seq<string>)
    ensures |r| > 0 && r[|r| - 1] == k
  {
    RemoveFirst(order, k) + [k]
  }

  /** After touching, `k` occurs exactly once, last, and the other keys are the same as before. */
  lemma TouchNoDup(order: seq<string>, k: string)
    requires NoDup(order)
    ensures NoDup(Touch(order, k))
    ensures forall x :: x in Touch(order, k) <==> x in order || x == k
    ensures forall i | 0 <= i < |Touch(order, k)| - 1 :: Touch(order, k)[i] != k
  {
    RemoveFirstNoDup(order, k);
    var r := RemoveFirst(order, k);
    assert Touch(order, k) == r + [k];
    forall i | 0 <= i < |r| ensures (r + [k])[i] != k {
      assert (r + [k])[i] == r[i];
    }
  }

  /** Touching a key that is (now) cached keeps the invariant. */
  lemma TouchKeepsTracking<V>(m: map<string, V>, order: seq<string>, k: string)
    requires NoDup(order) && forall x :: x in m <==> x in order || x == k
    ensures NoDup(Touch(order, k)) && Tracks(m, Touch(order, k))
  {
    TouchNoDup(order, k);
  }

  // ---- eviction ----

  /**
   * `_manage_memory_cache`: while the dictionary holds more than `max`
   * entries, pop the front of the access order and delete that key. Popping
   * an empty list raises; the flag is false exactly then.
   */
  function Evict<V>(m: map<string, V>, order: seq<string>, max: int): (r: (map<string, V>, seq<string>, bool))
    ensures r.2 ==> |r.0| <= max
    ensures !r.2 ==> r.1 == []
    ensures |m| <= max ==> r == (m, order, true)
    decreases |order|
  {
    if |m| <= max then (m, order, true)
    else if order == [] then (m, order, false)
    else Evict(m - {order[0]}, order[1..], max)
  }

  /** Eviction deletes entries and never changes a remaining value. */
  lemma {:induction false} EvictKeepsValues<V>(m: map<string, V>, order: seq<string>, max: int)
    ensures var r := Evict(m, order, max); forall k | k in r.0 :: k in m && r.0[k] == m[k]
    decreases |order|
  {
    if |m| > max && order != [] {
      EvictKeepsValues(m - {order[0]}, order[1..], max);
    }
  }

  /** Eviction takes keys from the front only: it pops some prefix `order[..n]` and leaves the suffix `order[n..]`. */
  lemma {:induction false} EvictLeavesSuffix<V>(m: map<string, V>, order: seq<string>, max: int) returns (n: nat)
    ensures n <= |order| && Evict(m, order, max).1 == order[n..]
    decreases |order|
  {
    if |m| > max && order != [] {
      var n' := EvictLeavesSuffix(m - {order[0]}, order[1..], max);
      n := n' + 1;
      assert order[1..][n'..] == order[n..];
    } else {
      n := 0;
    }
  }

  /** The keys eviction drops from the cache are exactly the cached keys in the popped prefix. */
  lemma {:induction false} EvictDropsPopped<V>(m: map<string, V>, order: seq<string>, max: int, n: nat, k: string)
    requires n <= |order| && Evict(m, order, max).1 == order[n..]
    ensures k in Evict(m, order, max).0 <==> k in m && k !in order[..n]
    decreases |order|
  {
    if |m| > max && order != [] {
      var m', o' := m - {order[0]}, order[1..];
      var r := Evict(m', o', max);
      assert Evict(m, order, max) == r;
      var n' := EvictLeavesSuffix(m', o', max);
      assert |r.1| == |o'| - n' == |order| - n;
      EvictDropsPopped(m', o', max, n', k);
      assert order[..n] == [order[0]] + o'[..n'];
      assert k in order[..n] <==> k == order[0] || k in o'[..n'];
    } else {
      assert |Evict(m, order, max).1| == |order|;
    }
  }

  lemma NothingListed<V>(m: map<string, V>)
    requires forall k | k in m :: k in []
    ensures |m| == 0
  {
    assert m.Keys == {};
  }

  lemma OnlyOne<V>(m: map<string, V>, last: string)
    requires forall k | k in m :: k == last
    ensures |m| <= 1
  {
    if last in m {
      assert m.Keys == {last};
    } else {
      assert m.Keys == {};
    }
  }

  /** With a capacity of zero or more, and every cached key listed, eviction never pops an empty list. */
  lemma {:induction false} EvictSucceeds<V>(m: map<string, V>, order: seq<string>, max: int)
    requires max >= 0 && forall k | k in m :: k in order
    ensures Evict(m, order, max).2
    decreases |order|
  {
    if order == [] {
      NothingListed(m);
    } else if |m| > max {
      var m' := m - {order[0]};
      forall k | k in m' ensures k in order[1..] {
        var i :| 0 <= i < |order| && order[i] == k;
        assert i != 0;
        assert order[1..][i - 1] == k;
      }
      EvictSucceeds(m', order[1..], max);
    }
  }

  /** Eviction keeps the invariant: no duplicates, and the order lists exactly the cached keys. */
  lemma {:induction false} EvictKeepsTracking<V>(m: map<string, V>, order: seq<string>, max: int)
    requires NoDup(order) && Tracks(m, order)
    ensures var r := Evict(m, order, max); NoDup(r.1) && Tracks(r.0, r.1)
    decreases |order|
  {
    if |m| > max && order != [] {
      var m', o' := m - {order[0]}, order[1..];
      forall i | 0 <= i < |o'| ensures o'[i] in m' {
        assert o'[i] == order[i + 1] && order[i + 1] != order[0];
      }
      forall k | k in m' ensures k in o' {
        var i :| 0 <= i < |order| && order[i] == k;
        assert o'[i - 1] == k;
      }
      EvictKeepsTracking(m', o', max);
    }
  }

  /** With room for at least one entry, the most recently used key is never evicted. */
  lemma {:induction false} EvictKeepsLast<V>(m: map<string, V>, order: seq<string>, max: int)
    requires max >= 1 && NoDup(order) && order != [] && order[|order| - 1] in m
    requires forall k | k in m :: k in order
    ensures var r := Evict(m, order, max); order[|order| - 1] in r.0
    decreases |order|
  {
    var last := order[|order| - 1];
    if |order| == 1 {
      forall k | k in m ensures k == last {
        assert k in order;
      }
      OnlyOne(m, last);
    }
    if |m| > max {
      assert order[0] != last;
      var m', o' := m - {order[0]}, order[1..];
      forall k | k in m' ensures k in o' {
        var i :| 0 <= i < |order| && order[i] == k;
        assert o'[i - 1] == k;
      }
      assert o'[|o'| - 1] == last;
      EvictKeepsLast(m', o', max);
    }
  }

  // ---- the cache ----

  class DataCache<V> {
    const maxMemoryItems: int
    var memory: map<string, V>
    var accessOrder: seq<string>

    ghost predicate Valid()
      reads this
    {
      NoDup(accessOrder) && Tracks(memory, accessOrder)
    }

    constructor (maxMemoryItems: int)
      ensures Valid() && this.maxMemoryItems == maxMemoryItems
      ensures memory == map[] && accessOrder == []
    {
      this.maxMemoryItems := maxMemoryItems;
      memory := map[];
      accessOrder := [];
    }

    /** `_update_access_order`. */
    method UpdateAccessOrder(key: string)
      modifies this
      ensures accessOrder == Touch(old(accessOrder), key) && memory == old(memory)
    {
      accessOrder := RemoveFirst(accessOrder, key) + [key];
    }

    /** `_manage_memory_cache`; `ok` is false where `pop(0)` on the empty list raises. */
    method ManageMemoryCache() returns (ok: bool)
      modifies this
      ensures (memory, accessOrder, ok) == Evict(old(memory), old(accessOrder), maxMemoryItems)
    {
      while |memory| > maxMemoryItems
        invariant Evict(memory, accessOrder, maxMemoryItems) == Evict(old(memory), old(accessOrder), maxMemoryItems)
        decreases |accessOrder|
      {
        if accessOrder == [] {
          return false;
        }
        var oldest := accessOrder[0];
        accessOrder := accessOrder[1..];
        if oldest in memory {
          memory := memory - {oldest};
        } else {
          assert memory - {oldest} == memory;
        }
      }
      return true;
    }

    /**
     * `set(key, data)` without persisting: store, touch, evict. With a
     * capacity of zero or more it succeeds and leaves at most that many
     * entries; with capacity one or more the new entry survives.
     */
    method Set(key: string, data: V) returns (ok: bool)
      requires Valid()
      modifies this
      ensures Valid()
      ensures (memory, accessOrder, ok) == Evict(old(memory)[key := data], Touch(old(accessOrder), key), maxMemoryItems)
      ensures ok <==> maxMemoryItems >= 0
      ensures ok ==> |memory| <= maxMemoryItems
      ensures maxMemoryItems >= 1 ==> key in memory && memory[key] == data
      ensures forall k | k in memory && k != key :: k in old(memory) && memory[k] == old(memory)[k]
    {
      memory := memory[key := data];
      UpdateAccessOrder(key);
      TouchKeepsTracking(memory, old(accessOrder), key);
      EvictKeepsTracking(memory, accessOrder, maxMemoryItems);
      if maxMemoryItems >= 0 {
        EvictSucceeds(memory, accessOrder, maxMemoryItems);
      } else {
        assert !Evict(memory, accessOrder, maxMemoryItems).2;
      }
      if maxMemoryItems >= 1 {
        EvictKeepsLast(memory, accessOrder, maxMemoryItems);
      }
      EvictKeepsValues(memory, accessOrder, maxMemoryItems);
      ok := ManageMemoryCache();
    }

    /** `has(key)` without the disk check. */
    function Has(key: string): bool
      reads this
    {
      key in memory
    }

    /** `get(key)` without the disk fallback: a hit returns the stored value and moves the key to the end. */
    method Get(key: string) returns (r: Option<V>)
      requires Valid()
      modifies this
      ensures Valid() && memory == old(memory)
      ensures r.Some? <==> old(Has(key))
      ensures r.Some? ==> r.value == memory[key] && accessOrder == Touch(old(accessOrder), key)
      ensures r.None? ==> accessOrder == old(accessOrder)
    {
      if key in memory {
        UpdateAccessOrder(key);
        TouchKeepsTracking(memory, old(accessOrder), key);
        r := Some(memory[key]);
      } else {
        r := None;
      }
    }

    /** `remove(key)` without the disk: true exactly when the key was cached. */
    method Remove(key: string) returns (removed: bool)
      requires Valid()
      modifies this
      ensures Valid()
      ensures removed <==> old(Has(key))
      ensures memory == old(memory) - {key}
      ensures accessOrder == RemoveFirst(old(accessOrder), key) && key !in accessOrder
    {
      removed := false;
      RemoveFirstNoDup(accessOrder, key);
      if key in memory {
        memory := memory - {key};
        if key in accessOrder {
          accessOrder := RemoveFirst(accessOrder, key);
        }
        removed := true;
      }
    }

    /** `clear()` without the disk. */
    method Clear()
      modifies this
      ensures Valid() && memory == map[] && accessOrder == []
    {
      memory := map[];
      accessOrder := [];
    }
  }
}
