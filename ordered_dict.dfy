/** A Python `dict`: a finite map that remembers the order in which its keys were
    first inserted. Assigning to a present key keeps its place; deleting a key
    removes it from the order; `values()` lists the values in key order. */
module OrderedDict {
  import opened Wrappers

  datatype Dict<K(==), V> = Dict(order: seq<K>, entries: map<K, V>)
  {
    /** The order lists every key exactly once. */
    ghost predicate Valid()
    {
      && (forall i, j :: 0 <= i < j < |order| ==> order[i] != order[j])
      && (forall k :: k in entries ==> k in order)
      && (forall i :: 0 <= i < |order| ==> order[i] in entries)
    }

    /** `d.get(k)`. */
    function Get(k: K): (r: Option<V>)
      ensures r.Some? <==> k in entries
      ensures r.Some? ==> r.value == entries[k]
    {
      if k in entries then Some(entries[k]) else None
    }

    /** `list(d.values())`. */
    function Values(): (vs: seq<V>)
      requires Valid()
      ensures |vs| == |order|
      ensures forall i :: 0 <= i < |order| ==> vs[i] == entries[order[i]]
    {
      seq(|order|, i requires 0 <= i < |order| => entries[order[i]])
    }

    /** `d[k] = v`. */
    function Put(k: K, v: V): (r: Dict<K, V>)
      requires Valid()
      ensures r.Valid()
      ensures r.entries == entries[k := v]
      ensures k in entries ==> r.order == order
      ensures k !in entries ==> r.order == order + [k]
    {
      if k in entries then Dict(order, entries[k := v]) else Dict(order + [k], entries[k := v])
    }

    /** `del d[k]`. */
    function Remove(k: K): (r: Dict<K, V>)
      requires Valid()
      ensures r.Valid()
      ensures r.entries == entries - {k}
      ensures k !in entries ==> r == this
    {
      if k !in entries then RemoveKeyAbsent(order, k); this
      else RemoveKeyValid(this, k); Dict(RemoveKey(order, k), entries - {k})
    }

    /** Position of a present key in the order. */
    ghost function IndexOf(k: K): (i: nat)
      requires Valid() && k in entries
      ensures i < |order| && order[i] == k
    {
      var i :| 0 <= i < |order| && order[i] == k; i
    }
  }

  function Empty<K(==), V>(): (d: Dict<K, V>)
    ensures d.Valid() && d.entries == map[] && d.Values() == []
  {
    Dict([], map[])
  }

  /** The order with one key taken out. */
  function RemoveKey<K(==)>(s: seq<K>, k: K): (r: seq<K>)
    ensures |r| <= |s|
  {
    if s == [] then []
    else (if s[0] == k then [] else [s[0]]) + RemoveKey(s[1..], k)
  }

  lemma {:induction false} RemoveKeyMember<K>(s: seq<K>, k: K, x: K)
    ensures x in RemoveKey(s, k) <==> x in s && x != k
  {
    if s != [] {
      RemoveKeyMember(s[1..], k, x);
    }
  }

  lemma RemoveKeyValid<K, V>(d: Dict<K, V>, k: K)
    requires d.Valid()
    ensures Dict(RemoveKey(d.order, k), d.entries - {k}).Valid()
  {
    var rest := RemoveKey(d.order, k);
    RemoveKeyDistinct(d.order, k);
    forall i | 0 <= i < |rest| ensures rest[i] in d.entries - {k} {
      RemoveKeyMember(d.order, k, rest[i]);
    }
    forall x | x in d.entries - {k} ensures x in rest {
      RemoveKeyMember(d.order, k, x);
    }
  }

  lemma {:induction false} RemoveKeyAbsent<K>(s: seq<K>, k: K)
    requires k !in s
    ensures RemoveKey(s, k) == s
  {
    if s != [] {
      RemoveKeyAbsent(s[1..], k);
    }
  }

  lemma {:induction false} RemoveKeyDistinct<K>(s: seq<K>, k: K)
    requires forall i, j :: 0 <= i < j < |s| ==> s[i] != s[j]
    ensures forall i, j :: 0 <= i < j < |RemoveKey(s, k)| ==> RemoveKey(s, k)[i] != RemoveKey(s, k)[j]
  {
    if s != [] {
      RemoveKeyDistinct(s[1..], k);
      RemoveKeyMember(s[1..], k, s[0]);
      var rest := RemoveKey(s[1..], k);
      assert s[0] !in s[1..];
      assert s[0] !in rest;
    }
  }

  /** Removing the key at position `i` of a duplicate-free order cuts out exactly that position. */
  lemma {:induction false} RemoveKeyAt<K>(s: seq<K>, i: nat)
    requires i < |s|
    requires forall a, b :: 0 <= a < b < |s| ==> s[a] != s[b]
    ensures RemoveKey(s, s[i]) == s[..i] + s[i + 1..]
  {
    if i == 0 {
      assert s[0] !in s[1..];
      RemoveKeyAbsent(s[1..], s[0]);
    } else {
      RemoveKeyAt(s[1..], i - 1);
      assert s[1..][..i - 1] + s[1..][i..] == s[1..i] + s[i + 1..];
      assert s[..i] + s[i + 1..] == [s[0]] + (s[1..i] + s[i + 1..]);
    }
  }

  /** `d[k] = v` on a present key replaces its value in place; on a new key it
      appends the value to `values()`. */
  lemma PutValues<K, V>(d: Dict<K, V>, k: K, v: V)
    requires d.Valid()
    ensures k in d.entries ==> d.Put(k, v).Values() == d.Values()[d.IndexOf(k) := v]
    ensures k !in d.entries ==> d.Put(k, v).Values() == d.Values() + [v]
  {
    var r := d.Put(k, v);
    if k in d.entries {
      var i := d.IndexOf(k);
      forall j | 0 <= j < |d.order| ensures r.Values()[j] == d.Values()[i := v][j] {
        if j != i {
          assert d.order[j] != k;
        }
      }
    } else {
      assert k !in d.order;
      forall j | 0 <= j < |d.order| ensures r.Values()[j] == (d.Values() + [v])[j] {
        assert d.order[j] != k;
      }
    }
  }

  /** `del d[k]` cuts the key's value out of `values()` and keeps the rest in order. */
  lemma RemoveValues<K, V>(d: Dict<K, V>, k: K)
    requires d.Valid() && k in d.entries
    ensures d.Remove(k).Values() == d.Values()[..d.IndexOf(k)] + d.Values()[d.IndexOf(k) + 1..]
  {
    var i := d.IndexOf(k);
    RemoveKeyAt(d.order, i);
    var r := d.Remove(k);
    assert r.order == d.order[..i] + d.order[i + 1..];
    var expected := d.Values()[..i] + d.Values()[i + 1..];
    assert |r.Values()| == |expected|;
    forall j | 0 <= j < |expected| ensures r.Values()[j] == expected[j] {
      if j < i {
        assert r.order[j] == d.order[j];
      } else {
        assert r.order[j] == d.order[j + 1];
      }
    }
  }

  /** Every listed value is stored under some key, and every stored value is listed. */
  lemma ValuesAreStored<K, V>(d: Dict<K, V>, v: V)
    requires d.Valid()
    ensures v in d.Values() <==> exists k :: k in d.entries && d.entries[k] == v
  {
    if v in d.Values() {
      var i :| 0 <= i < |d.Values()| && d.Values()[i] == v;
      assert d.order[i] in d.entries;
    }
    if exists k :: k in d.entries && d.entries[k] == v {
      var k :| k in d.entries && d.entries[k] == v;
      assert d.Values()[d.IndexOf(k)] == v;
    }
  }
}
