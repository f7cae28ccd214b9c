/** A bounded map that forgets its least recently used key. */
module SimpleLruMap {
  import opened Common

  datatype Entry<K, V> = Entry(key: K, value: V)

  /** The entries in the order of the underlying map: least recently used first. */
  type Entries<K, V> = seq<Entry<K, V>>

  function Keys<K, V>(s: Entries<K, V>): (keys: seq<K>)
    ensures |keys| == |s| && forall i | 0 <= i < |s| :: keys[i] == s[i].key
  {
    seq(|s|, i requires 0 <= i < |s| => s[i].key)
  }

  predicate DistinctKeys<K(==), V>(s: Entries<K, V>) {
    forall i, k | 0 <= i < k < |s| :: s[i].key != s[k].key
  }

  function Find<K(==), V>(s: Entries<K, V>, key: K): (r: Option<V>)
    ensures r.Some? <==> key in Keys(s)
    ensures r.Some? ==> Entry(key, r.value) in s
  {
    if s == [] then None
    else if s[|s| - 1].key == key then Some(s[|s| - 1].value)
    else
      assert Keys(s) == Keys(s[..|s| - 1]) + [s[|s| - 1].key];
      Find(s[..|s| - 1], key)
  }

  function Delete<K(==, !new), V(!new)>(s: Entries<K, V>, key: K): (r: Entries<K, V>)
    ensures forall e :: e in r <==> e in s && e.key != key
    ensures |r| <= |s|
  {
    if s == [] then []
    else
      var n := |s| - 1;
      assert s == s[..n] + [s[n]];
      Delete(s[..n], key) + (if s[n].key == key then [] else [s[n]])
  }

  /** A hit becomes the most recently used entry. */
  function Get<K(==, !new), V(!new)>(s: Entries<K, V>, key: K): (Entries<K, V>, Option<V>) {
    match Find(s, key)
    case None => (s, None)
    case Some(v) => (Delete(s, key) + [Entry(key, v)], Some(v))
  }

  function Set<K(==, !new), V(!new)>(s: Entries<K, V>, maxSize: nat, key: K, value: V): Entries<K, V> {
    var more := Delete(s, key) + [Entry(key, value)];
    if |more| > maxSize then more[1..] else more
  }

  // ---------------------------------------------------------------- what the operations keep

  lemma {:induction false} DeleteDistinct<K(!new), V(!new)>(s: Entries<K, V>, key: K)
    requires DistinctKeys(s)
    ensures DistinctKeys(Delete(s, key))
  {
    if s != [] {
      var n := |s| - 1;
      var kept := Delete(s[..n], key);
      DeleteDistinct(s[..n], key);
      forall i | 0 <= i < |kept| ensures kept[i].key != s[n].key {
        assert kept[i] in s[..n];
        var k :| 0 <= k < n && s[..n][k] == kept[i];
        assert s[k].key != s[n].key;
      }
    }
  }

  lemma {:induction false} DeleteShrinks<K(!new), V(!new)>(s: Entries<K, V>, key: K)
    requires DistinctKeys(s) && key in Keys(s)
    ensures |Delete(s, key)| == |s| - 1
  {
    var n := |s| - 1;
    assert Keys(s) == Keys(s[..n]) + [s[n].key];
    if s[n].key == key {
      forall e | e in s[..n] ensures e.key != key {
        var k :| 0 <= k < n && s[..n][k] == e;
        assert s[k].key != s[n].key;
      }
      DeleteAbsent(s[..n], key);
    } else {
      DeleteShrinks(s[..n], key);
    }
  }

  lemma {:induction false} DeleteAbsent<K(!new), V(!new)>(s: Entries<K, V>, key: K)
    requires forall e | e in s :: e.key != key
    ensures Delete(s, key) == s
  {
    if s != [] {
      var n := |s| - 1;
      assert s == s[..n] + [s[n]];
      DeleteAbsent(s[..n], key);
    }
  }

  lemma DistinctMember<K(!new), V(!new)>(s: Entries<K, V>, e: Entry<K, V>)
    requires DistinctKeys(s) && e in s
    ensures Find(s, e.key) == Some(e.value)
  {
    var v := Find(s, e.key).value;
    assert e.key in Keys(s) by { var i :| 0 <= i < |s| && s[i] == e; assert Keys(s)[i] == e.key; }
    var i :| 0 <= i < |s| && s[i] == e;
    var k :| 0 <= k < |s| && s[k] == Entry(e.key, v);
    assert i == k;
  }

  /** Reading changes only the order, and reads what is there. */
  lemma GetKeeps<K(!new), V(!new)>(s: Entries<K, V>, key: K)
    requires DistinctKeys(s)
    ensures var (s', r) := Get(s, key);
            && DistinctKeys(s') && |s'| == |s| && (forall e :: e in s' <==> e in s) && r == Find(s, key)
  {
    hide Find, Delete;
    DeleteDistinct(s, key);
    if Find(s, key).Some? {
      DeleteShrinks(s, key);
      forall e | e in s && e.key == key ensures e == Entry(key, Find(s, key).value) { DistinctMember(s, e); }
    }
  }

  /** Writing holds the bound, keeps keys distinct, and may only drop other entries. */
  lemma SetKeeps<K(!new), V(!new)>(s: Entries<K, V>, maxSize: nat, key: K, value: V)
    requires DistinctKeys(s) && maxSize >= 1 && |s| <= maxSize
    ensures var s' := Set(s, maxSize, key, value);
            && DistinctKeys(s') && |s'| <= maxSize && Find(s', key) == Some(value)
            && (forall e | e in s' :: e == Entry(key, value) || (e in s && e.key != key))
            && (forall e | e in s && e.key != key :: e in s' || (|s| == maxSize && e == Delete(s, key)[0]))
  {
    DeleteDistinct(s, key);
    var s' := Set(s, maxSize, key, value);
    var kept := Delete(s, key);
    assert (kept + [Entry(key, value)])[|kept|] == Entry(key, value);
    assert Entry(key, value) in s';
    DistinctMember(s', Entry(key, value));
    forall e | e in s && e.key != key ensures e in s' || (|s| == maxSize && e == kept[0]) {
      var i :| 0 <= i < |kept| && kept[i] == e;
      if |kept| + 1 > maxSize && i > 0 { assert s'[i - 1] == e; } else { assert |kept| + 1 > maxSize || s'[i] == e; }
    }
  }

  // ---------------------------------------------------------------- the map object

  class LruMap<K(==, !new), V(!new)> {
    const maxSize: nat
    var entries: Entries<K, V>

    ghost predicate Valid()
      reads this
    {
      maxSize >= 1 && DistinctKeys(entries) && |entries| <= maxSize
    }

    constructor (maxSize: nat)
      requires maxSize >= 1
      ensures Valid() && entries == [] && this.maxSize == maxSize
    {
      this.maxSize := maxSize;
      entries := [];
    }

    method Read(key: K) returns (r: Option<V>)
      requires Valid()
      modifies this`entries
      ensures Valid() && (entries, r) == Get(old(entries), key) && forall e :: e in entries <==> e in old(entries)
    {
      GetKeeps(entries, key);
      r := Find(entries, key);
      if r.None? { return; }
      entries := Delete(entries, key);
      entries := entries + [Entry(key, r.value)];
    }

    method Write(key: K, value: V)
      requires Valid()
      modifies this`entries
      ensures Valid() && entries == Set(old(entries), maxSize, key, value) && Find(entries, key) == Some(value)
    {
      SetKeeps(entries, maxSize, key, value);
      var size := |entries|;
      if Find(entries, key).Some? { entries := Delete(entries, key); } else { DeleteAbsentKey(entries, key); }
      entries := entries + [Entry(key, value)];
      if |entries| > maxSize { entries := entries[1..]; }
    }

    method Remove(key: K)
      requires Valid()
      modifies this`entries
      ensures Valid() && entries == Delete(old(entries), key)
    {
      DeleteDistinct(entries, key);
      entries := Delete(entries, key);
    }
  }

  lemma DeleteAbsentKey<K(!new), V(!new)>(s: Entries<K, V>, key: K)
    requires key !in Keys(s)
    ensures Delete(s, key) == s
  {
    forall e | e in s ensures e.key != key { var i :| 0 <= i < |s| && s[i] == e; assert Keys(s)[i] == e.key; }
    DeleteAbsent(s, key);
  }
}
