/** Python dictionaries, which remember the order in which keys were first
    inserted, as sequences of key/value pairs. A dictionary built by Python
    never holds a key twice (`DistinctKeys`); every operation here keeps that
    invariant. */
module Dicts {
  import opened Wrappers

  /** The keys in insertion order (`list(d)`). */
  function Keys<K, V>(d: seq<(K, V)>): (ks: seq<K>)
    ensures |ks| == |d|
  {
    if d == [] then [] else [d[0].0] + Keys(d[1..])
  }

  /** The values in insertion order (`list(d.values())`). */
  function Values<K, V>(d: seq<(K, V)>): (vs: seq<V>)
    ensures |vs| == |d|
    ensures forall i :: 0 <= i < |d| ==> vs[i] == d[i].1
  {
    if d == [] then [] else [d[0].1] + Values(d[1..])
  }

  /** `k in d`. */
  predicate HasKey<K(==), V>(d: seq<(K, V)>, k: K) {
    k in Keys(d)
  }

  /** No key appears twice. */
  predicate DistinctKeys<K(==), V>(d: seq<(K, V)>) {
    d == [] || (!HasKey(d[1..], d[0].0) && DistinctKeys(d[1..]))
  }

  /** `d.get(k)`: the value stored under `k`, or None. */
  function Get<K(==), V>(d: seq<(K, V)>, k: K): (r: Option<V>)
    ensures r.None? <==> !HasKey(d, k)
    ensures r.Some? ==> (k, r.value) in d
  {
    if d == [] then None
    else if d[0].0 == k then Some(d[0].1)
    else Get(d[1..], k)
  }

  /** `d[k] = v`: an existing key keeps its position and takes the new value,
      a new key goes to the end. */
  function Put<K(==), V>(d: seq<(K, V)>, k: K, v: V): (r: seq<(K, V)>)
    ensures Get(r, k) == Some(v)
    ensures Keys(r) == if HasKey(d, k) then Keys(d) else Keys(d) + [k]
  {
    if d == [] then [(k, v)]
    else if d[0].0 == k then [(k, v)] + d[1..]
    else
      var r := [d[0]] + Put(d[1..], k, v);
      assert r[1..] == Put(d[1..], k, v);
      r
  }

  /** `del d[k]`: the entries under other keys, in their order. */
  function Remove<K(==), V>(d: seq<(K, V)>, k: K): (r: seq<(K, V)>)
    ensures !HasKey(r, k)
    ensures |r| <= |d|
    ensures !HasKey(d, k) ==> r == d
  {
    if d == [] then []
    else if d[0].0 == k then Remove(d[1..], k)
    else
      var r := [d[0]] + Remove(d[1..], k);
      assert r[1..] == Remove(d[1..], k);
      r
  }

  /** `dict(pairs)`: later pairs overwrite earlier ones, and a key keeps the
      position of its first occurrence. */
  function FromPairs<K(==), V>(pairs: seq<(K, V)>): (r: seq<(K, V)>)
    decreases |pairs|
  {
    if pairs == [] then []
    else Put(FromPairs(pairs[..|pairs| - 1]), pairs[|pairs| - 1].0, pairs[|pairs| - 1].1)
  }

  /** Writing one key leaves every other key's value alone. */
  lemma {:induction false} PutOther<K, V>(d: seq<(K, V)>, k: K, v: V, k': K)
    requires k' != k
    ensures Get(Put(d, k, v), k') == Get(d, k')
  {
    if d != [] && d[0].0 != k {
      PutOther(d[1..], k, v, k');
      assert Put(d, k, v)[1..] == Put(d[1..], k, v);
    }
  }

  /** Writing a key keeps keys distinct. */
  lemma {:induction false} PutDistinct<K, V>(d: seq<(K, V)>, k: K, v: V)
    requires DistinctKeys(d)
    ensures DistinctKeys(Put(d, k, v))
  {
    if d != [] && d[0].0 != k {
      PutDistinct(d[1..], k, v);
      var r := Put(d, k, v);
      assert r[1..] == Put(d[1..], k, v);
      assert r[0] == d[0];
    }
  }

  /** Writing a new key adds one entry; overwriting adds none. */
  lemma PutLength<K, V>(d: seq<(K, V)>, k: K, v: V)
    ensures |Put(d, k, v)| == if HasKey(d, k) then |d| else |d| + 1
  {
    assert |Keys(Put(d, k, v))| == |Put(d, k, v)|;
  }

  /** Deleting one key leaves every other key's value alone. */
  lemma {:induction false} RemoveOther<K, V>(d: seq<(K, V)>, k: K, k': K)
    requires k' != k
    ensures Get(Remove(d, k), k') == Get(d, k')
  {
    if d != [] {
      RemoveOther(d[1..], k, k');
      if d[0].0 != k {
        assert Remove(d, k)[1..] == Remove(d[1..], k);
      }
    }
  }

  /** Deleting never introduces a key. */
  lemma {:induction false} RemoveKeys<K, V>(d: seq<(K, V)>, k: K, k': K)
    requires HasKey(Remove(d, k), k')
    ensures HasKey(d, k') && k' != k
  {
    if d != [] {
      var r := Remove(d, k);
      if d[0].0 == k {
        RemoveKeys(d[1..], k, k');
      } else {
        assert r[1..] == Remove(d[1..], k);
        if k' != d[0].0 {
          assert Keys(r) == [d[0].0] + Keys(r[1..]);
          RemoveKeys(d[1..], k, k');
        }
      }
    }
  }

  /** Deleting keeps keys distinct and shrinks a dictionary that held the key
      by exactly one entry. */
  lemma {:induction false} RemoveDistinct<K, V>(d: seq<(K, V)>, k: K)
    requires DistinctKeys(d)
    ensures DistinctKeys(Remove(d, k))
    ensures HasKey(d, k) ==> |Remove(d, k)| == |d| - 1
  {
    if d != [] {
      RemoveDistinct(d[1..], k);
      var r := Remove(d, k);
      if d[0].0 != k {
        assert r[1..] == Remove(d[1..], k);
        if HasKey(r[1..], d[0].0) {
          RemoveKeys(d[1..], k, d[0].0);
        }
      }
    }
  }

  /** The keys of a concatenation. */
  lemma {:induction false} KeysAppend<K, V>(a: seq<(K, V)>, b: seq<(K, V)>)
    ensures Keys(a + b) == Keys(a) + Keys(b)
    decreases |a|
  {
    if a != [] {
      KeysAppend(a[1..], b);
      assert (a + b)[1..] == a[1..] + b;
      calc {
        Keys(a + b);
        { assert a + b != [] && (a + b)[0] == a[0]; }
        [a[0].0] + Keys(a[1..] + b);
        [a[0].0] + (Keys(a[1..]) + Keys(b));
        ([a[0].0] + Keys(a[1..])) + Keys(b);
      }
    } else {
      assert a + b == b;
    }
  }

  /** `dict(pairs)` holds each key of `pairs` once and no other key. */
  lemma {:induction false} FromPairsKeys<K, V>(pairs: seq<(K, V)>, k: K)
    ensures DistinctKeys(FromPairs(pairs))
    ensures HasKey(FromPairs(pairs), k) <==> HasKey(pairs, k)
    decreases |pairs|
  {
    if pairs != [] {
      var init := pairs[..|pairs| - 1];
      var last := pairs[|pairs| - 1];
      FromPairsKeys(init, k);
      PutDistinct(FromPairs(init), last.0, last.1);
      HasKeyFrontLast(pairs, k);
    }
  }

  /** `dict(pairs)` maps a key to the value of its last pair. */
  lemma {:induction false} FromPairsLast<K, V>(pairs: seq<(K, V)>, i: nat)
    requires i < |pairs|
    requires forall j :: i < j < |pairs| ==> pairs[j].0 != pairs[i].0
    ensures Get(FromPairs(pairs), pairs[i].0) == Some(pairs[i].1)
    decreases |pairs|
  {
    var init := pairs[..|pairs| - 1];
    var last := pairs[|pairs| - 1];
    if i < |pairs| - 1 {
      FromPairsLast(init, i);
      PutOther(FromPairs(init), last.0, last.1, pairs[i].0);
    }
  }

  /** In a dictionary without repeated keys, each entry is what `get` finds
      under its key. */
  lemma {:induction false} GetAt<K, V>(d: seq<(K, V)>, i: nat)
    requires DistinctKeys(d) && i < |d|
    ensures Get(d, d[i].0) == Some(d[i].1)
    decreases i
  {
    if i > 0 {
      GetAt(d[1..], i - 1);
      assert d[1..][i - 1] == d[i];
      assert Keys(d[1..])[i - 1] == d[i].0 by { KeysAt(d[1..], i - 1); }
    }
  }

  /** The key at a position. */
  lemma {:induction false} KeysAt<K, V>(d: seq<(K, V)>, i: nat)
    requires i < |d|
    ensures Keys(d)[i] == d[i].0
    decreases i
  {
    if i > 0 {
      KeysAt(d[1..], i - 1);
    }
  }

  /** Overwriting a key that is present changes only its own entry. */
  lemma {:induction false} PutAt<K, V>(d: seq<(K, V)>, k: K, v: V, i: nat)
    requires DistinctKeys(d) && HasKey(d, k) && i < |d|
    ensures |Put(d, k, v)| == |d|
    ensures Put(d, k, v)[i] == if d[i].0 == k then (k, v) else d[i]
    decreases i
  {
    PutLength(d, k, v);
    if d[0].0 != k {
      assert Put(d, k, v) == [d[0]] + Put(d[1..], k, v);
      if i > 0 {
        PutAt(d[1..], k, v, i - 1);
      }
    } else if i > 0 {
      assert Keys(d[1..])[i - 1] == d[i].0 by { KeysAt(d[1..], i - 1); }
    }
  }

  /** Every entry after a write is an old entry or the written one. */
  lemma {:induction false} PutEntries<K, V>(d: seq<(K, V)>, k: K, v: V)
    ensures forall e :: e in Put(d, k, v) ==> e in d || e == (k, v)
  {
    if d != [] && d[0].0 != k {
      PutEntries(d[1..], k, v);
      assert Put(d, k, v) == [d[0]] + Put(d[1..], k, v);
    }
  }

  /** Every entry after a deletion is an old entry. */
  lemma {:induction false} RemoveEntries<K, V>(d: seq<(K, V)>, k: K)
    ensures forall e :: e in Remove(d, k) ==> e in d
  {
    if d != [] {
      RemoveEntries(d[1..], k);
      if d[0].0 != k {
        assert Remove(d, k) == [d[0]] + Remove(d[1..], k);
      }
    }
  }

  /** The key of every entry is a key of the dictionary. */
  lemma {:induction false} EntryKey<K, V>(d: seq<(K, V)>, e: (K, V))
    requires e in d
    ensures HasKey(d, e.0)
  {
    if d[0] != e {
      EntryKey(d[1..], e);
    }
  }

  /** After `del d[k]` no entry is under `k`, and every entry is an old one. */
  lemma RemovedEntries<K, V>(d: seq<(K, V)>, k: K)
    ensures forall e :: e in Remove(d, k) ==> e in d && e.0 != k
  {
    RemoveEntries(d, k);
    forall e | e in Remove(d, k) ensures e.0 != k {
      EntryKey(Remove(d, k), e);
    }
  }

  /** Keys that differ position by position are distinct. */
  lemma {:induction false} DistinctByIndex<K, V>(d: seq<(K, V)>)
    requires forall i, j :: 0 <= i < j < |d| ==> d[i].0 != d[j].0
    ensures DistinctKeys(d)
  {
    if d != [] {
      DistinctByIndex(d[1..]);
      if HasKey(d[1..], d[0].0) {
        var m :| 0 <= m < |Keys(d[1..])| && Keys(d[1..])[m] == d[0].0;
        KeysAt(d[1..], m);
      }
    }
  }

  /** Two dictionaries with the same keys in the same order and the same
      value under every key are the same dictionary. */
  lemma {:induction false} SameKeysAndValues<K, V>(a: seq<(K, V)>, b: seq<(K, V)>)
    requires DistinctKeys(a) && Keys(a) == Keys(b)
    requires forall k :: HasKey(a, k) ==> Get(a, k) == Get(b, k)
    ensures a == b
  {
    forall i | 0 <= i < |a| ensures a[i] == b[i] {
      KeysAt(a, i);
      KeysAt(b, i);
      assert HasKey(a, a[i].0) by { assert Keys(a)[i] == a[i].0; }
      GetAt(a, i);
      DistinctKeysByKeys(a, b);
      GetAt(b, i);
    }
  }

  /** Whether keys repeat depends on the keys alone. */
  lemma {:induction false} DistinctKeysByKeys<K, V>(a: seq<(K, V)>, b: seq<(K, V)>)
    requires DistinctKeys(a) && Keys(a) == Keys(b)
    ensures DistinctKeys(b)
  {
    if a != [] {
      assert Keys(a[1..]) == Keys(a)[1..] && Keys(b[1..]) == Keys(b)[1..];
      DistinctKeysByKeys(a[1..], b[1..]);
    }
  }

  /** A non-empty sequence is its front followed by its last element. */
  lemma FrontLast<T>(s: seq<T>)
    requires s != []
    ensures s[..|s| - 1] + [s[|s| - 1]] == s
  {
  }

  /** A non-empty dictionary has a key when its front has it or its last
      entry carries it. */
  lemma HasKeyFrontLast<K, V>(d: seq<(K, V)>, k: K)
    requires d != []
    ensures HasKey(d, k) <==> HasKey(d[..|d| - 1], k) || d[|d| - 1].0 == k
  {
    FrontLast(d);
    KeysAppend(d[..|d| - 1], [d[|d| - 1]]);
  }

  /** A key of a dictionary sits at some position. */
  lemma KeyIndex<K, V>(d: seq<(K, V)>, k: K)
    requires HasKey(d, k)
    ensures exists i :: 0 <= i < |d| && d[i].0 == k
  {
    var i :| 0 <= i < |Keys(d)| && Keys(d)[i] == k;
    KeysAt(d, i);
  }

  /** Keys read off position by position. */
  lemma {:induction false} KeysByIndex<K, V>(d: seq<(K, V)>, ks: seq<K>)
    requires |d| == |ks| && forall i :: 0 <= i < |d| ==> d[i].0 == ks[i]
    ensures Keys(d) == ks
  {
    forall i | 0 <= i < |d| ensures Keys(d)[i] == ks[i] {
      KeysAt(d, i);
    }
  }

  lemma PrefixSnoc<T>(s: seq<T>, n: nat)
    requires 0 < n <= |s|
    ensures s[..n] == s[..n - 1] + [s[n - 1]]
  {
  }

  /** Writing a key that is absent appends one entry at the end. */
  lemma {:induction false} PutNew<K, V>(d: seq<(K, V)>, k: K, v: V)
    requires !HasKey(d, k)
    ensures Put(d, k, v) == d + [(k, v)]
  {
    if d != [] {
      var t := d[1..];
      assert Keys(d) == [d[0].0] + Keys(t);
      assert d[0].0 != k && !HasKey(t, k);
      PutNew(t, k, v);
      calc {
        Put(d, k, v);
        [d[0]] + Put(t, k, v);
        [d[0]] + (t + [(k, v)]);
        { assert [d[0]] + t == d; }
        d + [(k, v)];
      }
    }
  }

  /** A dictionary without repeated keys has different keys at different
      positions. */
  lemma {:induction false} DistinctIndex<K, V>(d: seq<(K, V)>)
    requires DistinctKeys(d)
    ensures forall i, j :: 0 <= i < j < |d| ==> d[i].0 != d[j].0
  {
    if d != [] {
      DistinctIndex(d[1..]);
      forall i, j | 0 <= i < j < |d| ensures d[i].0 != d[j].0 {
        KeysAt(d[1..], j - 1);
        if i > 0 {
          assert d[i] == d[1..][i - 1];
        }
      }
    }
  }
}
