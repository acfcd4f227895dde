/** The character-relationship tab: relationships between two characters are
    kept under a pair of names sorted in Python's string order, stored in the
    project document under `"A|B"` keys and read back from that format (and
    from the older tuple and tuple-text formats). */
module Relationships {
  import opened Wrappers
  import opened Text
  import opened Json
  import Dicts
  import DataManager

  /** Two character names, the smaller first. */
  datatype Pair = Pair(first: string, second: string)

  /** Python's `a < b` on strings: code point by code point, a proper prefix
      coming first. */
  predicate Below(a: string, b: string) {
    if a == [] then b != []
    else if b == [] then false
    else if a[0] != b[0] then a[0] < b[0]
    else Below(a[1..], b[1..])
  }

  /** The string order is total, irreflexive and asymmetric. */
  lemma {:induction false} BelowTotal(a: string, b: string)
    ensures a == b || Below(a, b) || Below(b, a)
    ensures !(Below(a, b) && Below(b, a))
    ensures a == b ==> !Below(a, b)
  {
    if a != [] && b != [] && a[0] == b[0] {
      BelowTotal(a[1..], b[1..]);
      if a[1..] == b[1..] {
        assert a == [a[0]] + a[1..] && b == [b[0]] + b[1..];
      }
    }
  }

  /** `tuple(sorted((a, b)))`. */
  function Sorted(a: string, b: string): (r: Pair)
    ensures r == Pair(a, b) || r == Pair(b, a)
    ensures !Below(r.second, r.first)
  {
    BelowTotal(a, b);
    if Below(b, a) then Pair(b, a) else Pair(a, b)
  }

  /** `_get_relationship_key(char1, char2)`: no key unless both names are
      given and differ; otherwise the two names in ascending order. */
  function Key(c1: string, c2: string): (r: Option<Pair>)
    ensures r.None? <==> (c1 == "" || c2 == "" || c1 == c2)
    ensures r.Some? ==> Below(r.value.first, r.value.second)
    ensures r.Some? ==> multiset{r.value.first, r.value.second} == multiset{c1, c2}
  {
    if c1 == "" || c2 == "" || c1 == c2 then None
    else
      BelowTotal(c1, c2);
      Some(Sorted(c1, c2))
  }

  /** The order in which the two characters are chosen does not matter. */
  lemma KeySymmetric(c1: string, c2: string)
    ensures Key(c1, c2) == Key(c2, c1)
  {
    BelowTotal(c1, c2);
  }

  /** A pair that `Key` can produce. */
  predicate IsKey(p: Pair) {
    Key(p.first, p.second) == Some(p)
  }

  /** The relationship shown for the two chosen characters
      (`_update_relation_edit`): None clears the field. */
  function Shown(rels: seq<(Pair, Json)>, c1: string, c2: string): (r: Option<Json>)
    ensures Key(c1, c2).None? ==> r.None?
    ensures Key(c1, c2).Some? ==> r == Dicts.Get(rels, Key(c1, c2).value)
  {
    match Key(c1, c2)
    case None => None
    case Some(k) => Dicts.Get(rels, k)
  }

  /** What is shown for two characters after a description was stored for
      them, in either order, and for any other two. */
  lemma ShownAfterPut(rels: seq<(Pair, Json)>, c1: string, c2: string, v: Json, d1: string, d2: string)
    requires Key(c1, c2).Some?
    ensures Key(d1, d2) == Key(c1, c2) ==> Shown(Dicts.Put(rels, Key(c1, c2).value, v), d1, d2) == Some(v)
    ensures Shown(Dicts.Put(rels, Key(c1, c2).value, v), c2, c1) == Some(v)
    ensures Key(d1, d2).Some? && Key(d1, d2) != Key(c1, c2) ==>
      Shown(Dicts.Put(rels, Key(c1, c2).value, v), d1, d2) == Shown(rels, d1, d2)
  {
    KeySymmetric(c1, c2);
    if Key(d1, d2).Some? && Key(d1, d2) != Key(c1, c2) {
      Dicts.PutOther(rels, Key(c1, c2).value, v, Key(d1, d2).value);
    }
  }

  // Saving

  /** The stored key `f"{char1}|{char2}"`. */
  function Encode(p: Pair): (r: string)
    ensures |r| == |p.first| + 1 + |p.second| && r[|p.first|] == '|'
  {
    p.first + "|" + p.second
  }

  /** The dictionary that `save_relationships_to_data` builds: each
      relationship under its encoded key, in order, a later one overwriting
      an earlier one with the same encoding. */
  function Savable(rels: seq<(Pair, Json)>): (r: seq<(string, Json)>)
    ensures Dicts.DistinctKeys(r)
    decreases |rels|
  {
    if rels == [] then []
    else
      var init := Savable(rels[..|rels| - 1]);
      var last := rels[|rels| - 1];
      Dicts.PutDistinct(init, Encode(last.0), last.1);
      Dicts.Put(init, Encode(last.0), last.1)
  }

  /** The relationships one-to-one under their encoded keys. */
  function Encoded(rels: seq<(Pair, Json)>): (r: seq<(string, Json)>)
    ensures |r| == |rels|
    ensures forall i :: 0 <= i < |rels| ==> r[i] == (Encode(rels[i].0), rels[i].1)
  {
    seq(|rels|, i requires 0 <= i < |rels| => (Encode(rels[i].0), rels[i].1))
  }

  /** A first name without `|` makes the encoding one-to-one. */
  lemma EncodeInjective(p: Pair, q: Pair)
    requires '|' !in p.first && '|' !in q.first
    requires Encode(p) == Encode(q)
    ensures p == q
  {
    SplitAtSeparator(p.first, p.second, q.first, q.second, '|');
  }

  /** Relationships under distinct pairs, none with `|` in its first name,
      are saved entry by entry, nothing overwritten. */
  lemma {:induction false} SavableIsEncoded(rels: seq<(Pair, Json)>)
    requires forall i, j :: 0 <= i < j < |rels| ==> rels[i].0 != rels[j].0
    requires forall i :: 0 <= i < |rels| ==> '|' !in rels[i].0.first
    ensures Savable(rels) == Encoded(rels)
    decreases |rels|
  {
    if rels != [] {
      var n := |rels| - 1;
      var init := rels[..n];
      assert forall i :: 0 <= i < n ==> init[i] == rels[i];
      SavableIsEncoded(init);
      EncodedSnoc(rels);
      LastKeyIsNew(rels);
      Dicts.PutNew(Encoded(init), Encode(rels[n].0), rels[n].1);
    }
  }

  lemma EncodedSnoc(rels: seq<(Pair, Json)>)
    requires rels != []
    ensures Encoded(rels) == Encoded(rels[..|rels| - 1]) + [(Encode(rels[|rels| - 1].0), rels[|rels| - 1].1)]
  {
    var n := |rels| - 1;
    var e, ei, last := Encoded(rels), Encoded(rels[..n]), (Encode(rels[n].0), rels[n].1);
    forall i | 0 <= i < |rels| ensures e[i] == (ei + [last])[i] {
      if i < n {
        assert rels[..n][i] == rels[i];
      }
    }
  }

  /** The last relationship's key is not among the earlier ones' keys. */
  lemma LastKeyIsNew(rels: seq<(Pair, Json)>)
    requires rels != []
    requires forall i :: 0 <= i < |rels| - 1 ==> rels[i].0 != rels[|rels| - 1].0
    requires forall i :: 0 <= i < |rels| ==> '|' !in rels[i].0.first
    ensures !Dicts.HasKey(Encoded(rels[..|rels| - 1]), Encode(rels[|rels| - 1].0))
  {
    var n := |rels| - 1;
    var ei := Encoded(rels[..n]);
    if Dicts.HasKey(ei, Encode(rels[n].0)) {
      var m :| 0 <= m < n && Dicts.Keys(ei)[m] == Encode(rels[n].0);
      Dicts.KeysAt(ei, m);
      assert rels[..n][m] == rels[m];
      EncodeInjective(rels[m].0, rels[n].0);
    }
  }

  // Loading

  /** A key of the dictionary handed to `load_relationships_from_data`: text
      (every key of a JSON document) or a tuple of names. A list can never
      be a dictionary key, so that branch is left out. */
  datatype RawKey = StrKey(s: string) | TupleKey(items: seq<string>)

  /** The argument of `load_relationships_from_data`: anything but a
      dictionary loads nothing. */
  datatype RawData = NotDict | Dict(entries: seq<(RawKey, Json)>)

  /** `eval(k)` on a key text, narrowed to what the loader keeps: a pair of
      names, or None when evaluation fails or gives anything else. */
  type EvalPair = string -> Option<(string, string)>

  /** A key in the tuple-text format `"('A', 'B')"`. */
  predicate TupleText(s: string) {
    StartsWith(s, "(") && EndsWith(s, ")")
  }

  /** The tuple-text branch: the evaluated pair, sorted. */
  function FromEval(o: Option<(string, string)>): (r: Option<Pair>)
    ensures r.Some? <==> o.Some?
    ensures r.Some? ==> r.value == Sorted(o.value.0, o.value.1)
  {
    match o
    case None => None
    case Some(ab) => Some(Sorted(ab.0, ab.1))
  }

  /** The `"A|B"` branch: split at the first `|`; both parts must be
      non-empty. */
  function FromBar(s: string): (r: Option<Pair>)
    ensures r.Some? ==> r.value.first != "" && r.value.second != ""
    ensures r.Some? ==> Find(s, "|", 0) >= 0 && exists a, b :: s == a + "|" + b && r.value == Sorted(a, b)
  {
    var i := Find(s, "|", 0);
    if i == -1 then None
    else
      var a := s[..i];
      var b := s[i + 1..];
      if a != "" && b != "" then
        assert s == a + "|" + b;
        Some(Sorted(a, b))
      else None
  }

  /** An encoded key splits back into its pair, the first name being free
      of `|`. */
  lemma FromBarEncode(p: Pair)
    requires IsKey(p) && '|' !in p.first
    ensures FromBar(Encode(p)) == Some(p)
  {
    SeparatorAt(p.first, p.second, '|');
    var s := Encode(p);
    assert s[..|p.first|] == p.first && s[|p.first| + 1..] == p.second;
    BelowTotal(p.first, p.second);
  }

  /** The key conversion of `load_relationships_from_data` as written: a
      text key that looks like a tuple goes only to `eval`, whatever the
      result. */
  function DecodeAsWritten(k: RawKey, eval: EvalPair): (r: Option<Pair>)
    ensures k.StrKey? && TupleText(k.s) ==> r == FromEval(eval(k.s))
    ensures k.StrKey? && !TupleText(k.s) ==> r == FromBar(k.s)
    ensures k.TupleKey? ==> (r.Some? <==> |k.items| == 2)
  {
    match k
    case StrKey(s) => if TupleText(s) then FromEval(eval(s)) else FromBar(s)
    case TupleKey(items) => if |items| == 2 then Some(Sorted(items[0], items[1])) else None
  }

  /** The key conversion with every format tried before a key is ignored: a
      tuple-looking text that `eval` cannot read is still tried as `"A|B"`. */
  function Decode(k: RawKey, eval: EvalPair): (r: Option<Pair>)
    ensures k.StrKey? && TupleText(k.s) && eval(k.s).Some? ==> r == FromEval(eval(k.s))
    ensures k.StrKey? && (!TupleText(k.s) || eval(k.s).None?) ==> r == FromBar(k.s)
    ensures k.TupleKey? ==> (r.Some? <==> |k.items| == 2)
  {
    match k
    case StrKey(s) =>
      if TupleText(s) && eval(s).Some? then FromEval(eval(s)) else FromBar(s)
    case TupleKey(items) => if |items| == 2 then Some(Sorted(items[0], items[1])) else None
  }

  /** Every key the source reads is read the same way by `Decode`. */
  lemma DecodeExtends(k: RawKey, eval: EvalPair)
    requires DecodeAsWritten(k, eval).Some?
    ensures Decode(k, eval) == DecodeAsWritten(k, eval)
  {
  }

  /** Relationships loaded from `es` with the source's conversion: later
      entries win. */
  function LoadEntriesAsWritten(es: seq<(RawKey, Json)>, eval: EvalPair): (r: seq<(Pair, Json)>)
    ensures Dicts.DistinctKeys(r)
    decreases |es|
  {
    if es == [] then []
    else
      var init := LoadEntriesAsWritten(es[..|es| - 1], eval);
      var last := es[|es| - 1];
      match DecodeAsWritten(last.0, eval)
      case None => init
      case Some(p) =>
        Dicts.PutDistinct(init, p, last.1);
        Dicts.Put(init, p, last.1)
  }

  /** Relationships loaded from `es`: later entries win. */
  function LoadEntries(es: seq<(RawKey, Json)>, eval: EvalPair): (r: seq<(Pair, Json)>)
    ensures Dicts.DistinctKeys(r)
    decreases |es|
  {
    if es == [] then []
    else
      var init := LoadEntries(es[..|es| - 1], eval);
      var last := es[|es| - 1];
      match Decode(last.0, eval)
      case None => init
      case Some(p) =>
        Dicts.PutDistinct(init, p, last.1);
        Dicts.Put(init, p, last.1)
  }

  function Loaded(raw: RawData, eval: EvalPair): (r: seq<(Pair, Json)>)
    ensures Dicts.DistinctKeys(r)
    ensures raw.NotDict? ==> r == []
  {
    if raw.NotDict? then [] else LoadEntries(raw.entries, eval)
  }

  /** The saved dictionary as the loader receives it. */
  function AsRaw(saved: seq<(string, Json)>): (r: seq<(RawKey, Json)>)
    ensures |r| == |saved|
    ensures forall i :: 0 <= i < |saved| ==> r[i] == (StrKey(saved[i].0), saved[i].1)
  {
    seq(|saved|, i requires 0 <= i < |saved| => (StrKey(saved[i].0), saved[i].1))
  }

  /** What saving may assume about the relationships: distinct keys made by
      `Key`, each first name free of `|`. */
  predicate Restorable(rels: seq<(Pair, Json)>) {
    (forall i, j :: 0 <= i < j < |rels| ==> rels[i].0 != rels[j].0) &&
    (forall i :: 0 <= i < |rels| ==> IsKey(rels[i].0) && '|' !in rels[i].0.first)
  }

  /** The saved entries of a prefix are the prefix of the saved entries. */
  lemma RawPrefix(rels: seq<(Pair, Json)>, n: nat)
    requires n <= |rels|
    ensures AsRaw(Encoded(rels))[..n] == AsRaw(Encoded(rels[..n]))
  {
    var es, ei := AsRaw(Encoded(rels)), AsRaw(Encoded(rels[..n]));
    forall i | 0 <= i < n ensures es[..n][i] == ei[i] {
      assert rels[..n][i] == rels[i];
    }
  }

  /** A saved key reads back as its own pair. */
  lemma DecodeEncoded(p: Pair, eval: EvalPair)
    requires IsKey(p) && '|' !in p.first && eval(Encode(p)).None?
    ensures Decode(StrKey(Encode(p)), eval) == Some(p)
  {
    FromBarEncode(p);
  }

  /** Loading one more entry whose pair is new appends it. */
  lemma LoadSnoc(es: seq<(RawKey, Json)>, eval: EvalPair, init: seq<(Pair, Json)>, p: Pair)
    requires es != [] && LoadEntries(es[..|es| - 1], eval) == init
    requires Decode(es[|es| - 1].0, eval) == Some(p) && !Dicts.HasKey(init, p)
    ensures LoadEntries(es, eval) == init + [(p, es[|es| - 1].1)]
  {
    Dicts.PutNew(init, p, es[|es| - 1].1);
  }

  /** Dropping the last relationship keeps what saving may assume, and what
      `eval` is assumed to do on the saved keys. */
  lemma RestorablePrefix(rels: seq<(Pair, Json)>, init: seq<(Pair, Json)>, eval: EvalPair)
    requires rels != [] && init == rels[..|rels| - 1]
    ensures Restorable(rels) ==> Restorable(init)
    ensures (forall i :: 0 <= i < |rels| ==> eval(Encode(rels[i].0)).None?) ==>
      forall i :: 0 <= i < |init| ==> eval(Encode(init[i].0)).None?
  {
    assert forall i :: 0 <= i < |init| ==> init[i] == rels[i];
  }

  /** Among distinct pairs the last one is not a key of the earlier ones. */
  lemma LastPairIsNew(rels: seq<(Pair, Json)>)
    requires rels != [] && Restorable(rels)
    ensures !Dicts.HasKey(rels[..|rels| - 1], rels[|rels| - 1].0)
  {
    var n := |rels| - 1;
    var init := rels[..n];
    if Dicts.HasKey(init, rels[n].0) {
      var m :| 0 <= m < n && Dicts.Keys(init)[m] == rels[n].0;
      assert init[m] == rels[m];
      Dicts.KeysAt(init, m);
    }
  }

  /** Loading the saved entries of all relationships appends the last one to
      what loading the saved entries of the others gives, when the last pair
      is new and its key reads back as itself. */
  lemma LoadEncodedSnoc(rels: seq<(Pair, Json)>, eval: EvalPair)
    requires rels != []
    requires var last := rels[|rels| - 1].0;
      !Dicts.HasKey(rels[..|rels| - 1], last) && IsKey(last) && '|' !in last.first && eval(Encode(last)).None?
    requires LoadEntries(AsRaw(Encoded(rels[..|rels| - 1])), eval) == rels[..|rels| - 1]
    ensures LoadEntries(AsRaw(Encoded(rels)), eval) == rels
  {
    var n := |rels| - 1;
    var init, last := rels[..n], rels[n];
    var es := AsRaw(Encoded(rels));
    DecodeEncoded(last.0, eval);
    RawPrefix(rels, n);
    assert es[n] == (StrKey(Encode(last.0)), last.1);
    Dicts.PutNew(init, last.0, last.1);
    calc {
      LoadEntries(es, eval);
      Dicts.Put(LoadEntries(es[..n], eval), last.0, last.1);
      Dicts.Put(init, last.0, last.1);
      init + [last];
      { Dicts.FrontLast(rels); }
      rels;
    }
  }

  lemma {:induction false} LoadEncoded(rels: seq<(Pair, Json)>, eval: EvalPair)
    requires Restorable(rels)
    requires forall i :: 0 <= i < |rels| ==> eval(Encode(rels[i].0)).None?
    ensures LoadEntries(AsRaw(Encoded(rels)), eval) == rels
    decreases |rels|
  {
    if rels != [] {
      var n := |rels| - 1;
      RestorablePrefix(rels, rels[..n], eval);
      LastPairIsNew(rels);
      LoadEncoded(rels[..n], eval);
      LoadEncodedSnoc(rels, eval);
    }
  }

  /** Saving and loading again gives back the same relationships, in the
      same order, when no first name holds `|` and `eval` reads no saved key
      as a pair. */
  lemma RoundTrip(rels: seq<(Pair, Json)>, eval: EvalPair)
    requires Restorable(rels)
    requires forall i :: 0 <= i < |rels| ==> eval(Encode(rels[i].0)).None?
    ensures Loaded(Dict(AsRaw(Savable(rels))), eval) == rels
  {
    LoadedEncoded(rels, eval);
    SavedAsEncoded(rels);
  }

  /** The two halves of the round trip, stated as implications. */
  lemma LoadedEncoded(rels: seq<(Pair, Json)>, eval: EvalPair)
    ensures Restorable(rels) && (forall i :: 0 <= i < |rels| ==> eval(Encode(rels[i].0)).None?) ==>
      Loaded(Dict(AsRaw(Encoded(rels))), eval) == rels
  {
    if Restorable(rels) && (forall i :: 0 <= i < |rels| ==> eval(Encode(rels[i].0)).None?) {
      LoadEncoded(rels, eval);
    }
  }

  lemma SavedAsEncoded(rels: seq<(Pair, Json)>)
    ensures Restorable(rels) ==> AsRaw(Savable(rels)) == AsRaw(Encoded(rels))
  {
    if Restorable(rels) {
      SavableIsEncoded(rels);
    }
  }

  /** With the source's conversion the round trip loses a relationship whose
      first name starts with `(` and whose second name ends with `)`: the
      saved key looks like a tuple, `eval` fails on it and the key is
      skipped. */
  lemma RoundTripAsWrittenLoses(eval: EvalPair)
    requires eval("(Ann)|Bob (Jr)").None?
    ensures var rels := [(Pair("(Ann)", "Bob (Jr)"), JStr("siblings"))];
      Restorable(rels) && LoadEntriesAsWritten(AsRaw(Savable(rels)), eval) == []
  {
    var p := Pair("(Ann)", "Bob (Jr)");
    assert Below(p.first, p.second) by { assert p.first[0] < p.second[0]; }
    var rels := [(p, JStr("siblings"))];
    assert rels[..0] == [];
    assert Encode(p) == "(Ann)|Bob (Jr)";
    var saved := Savable(rels);
    assert Savable(rels[..0]) == [];
    assert saved == Dicts.Put([], Encode(p), JStr("siblings"));
    assert saved == [("(Ann)|Bob (Jr)", JStr("siblings"))];
    var es := AsRaw(saved);
    assert es[..0] == [];
    assert TupleText("(Ann)|Bob (Jr)");
  }

  /** The relationship tab's state: the relationships in memory and the
      document they are saved to. */
  class RelationshipTab {
    var relationships: seq<(Pair, Json)>
    const data: DataManager.NovelDataManager

    predicate Valid()
      reads this, data, data.cache
    {
      Dicts.DistinctKeys(relationships) && data.Valid()
    }

    constructor (data: DataManager.NovelDataManager)
      requires data.Valid()
      ensures Valid() && relationships == [] && this.data == data
    {
      relationships := [];
      this.data := data;
    }

    /** `load_relationships_from_data(relationships_data)`: the loaded
        relationships replace the ones in memory. */
    method LoadRelationships(raw: RawData, eval: EvalPair)
      requires Valid()
      modifies this
      ensures Valid()
      ensures relationships == Loaded(raw, eval)
    {
      var loaded: seq<(Pair, Json)> := [];
      if raw.Dict? {
        var es := raw.entries;
        var i := 0;
        while i < |es|
          invariant 0 <= i <= |es|
          invariant loaded == LoadEntries(es[..i], eval)
        {
          var key := Decode(es[i].0, eval);
          if key.Some? {
            loaded := Dicts.Put(loaded, key.value, es[i].1);
          }
          assert es[..i + 1][..i] == es[..i];
          i := i + 1;
        }
        assert es[..i] == es;
      }
      relationships := loaded;
    }

    /** `save_relationships_to_data`: the encoded dictionary becomes the
        document's `relationships`, through `set_relationships` as written,
        which leaves the cache as it was. */
    method SaveRelationships()
      requires Valid()
      modifies data
      ensures Valid()
      ensures data.novelData == Dicts.Put(old(data.novelData), "relationships", JObj(Savable(relationships)))
      ensures data.modified && data.currentFile == old(data.currentFile)
      ensures data.CacheEntries() == old(data.CacheEntries())
    {
      var savable: seq<(string, Json)> := [];
      var i := 0;
      while i < |relationships|
        invariant 0 <= i <= |relationships|
        invariant savable == Savable(relationships[..i])
      {
        savable := Dicts.Put(savable, Encode(relationships[i].0), relationships[i].1);
        assert relationships[..i + 1][..i] == relationships[..i];
        i := i + 1;
      }
      assert relationships[..i] == relationships;
      data.SetRelationshipsAsWritten(JObj(savable));
    }

    /** `delete_relationship`: without a valid key nothing happens; a
        relationship that exists is removed and the document marked
        modified. */
    method DeleteRelationship(c1: string, c2: string)
      requires Valid()
      modifies this, data
      ensures Valid()
      ensures Key(c1, c2).None? ==> relationships == old(relationships) && data.modified == old(data.modified)
      ensures Key(c1, c2).Some? ==>
        relationships == Dicts.Remove(old(relationships), Key(c1, c2).value) &&
        data.modified == (old(data.modified) || Dicts.HasKey(old(relationships), Key(c1, c2).value))
      ensures data.novelData == old(data.novelData) && data.currentFile == old(data.currentFile)
    {
      var key := Key(c1, c2);
      if key.Some? && Dicts.HasKey(relationships, key.value) {
        Dicts.RemoveDistinct(relationships, key.value);
        relationships := Dicts.Remove(relationships, key.value);
        data.MarkModified();
      }
    }

    /** `add_or_update_relationship`: without a valid key nothing happens; a
        blank description deletes the relationship; otherwise the stripped
        description is stored under the key and the document marked
        modified. */
    method AddOrUpdateRelationship(c1: string, c2: string, desc: string)
      requires Valid()
      modifies this, data
      ensures Valid()
      ensures Key(c1, c2).None? ==> relationships == old(relationships) && data.modified == old(data.modified)
      ensures Key(c1, c2).Some? && Strip(desc) == "" ==>
        relationships == Dicts.Remove(old(relationships), Key(c1, c2).value) &&
        data.modified == (old(data.modified) || Dicts.HasKey(old(relationships), Key(c1, c2).value))
      ensures Key(c1, c2).Some? && Strip(desc) != "" ==>
        relationships == Dicts.Put(old(relationships), Key(c1, c2).value, JStr(Strip(desc))) && data.modified
      ensures data.novelData == old(data.novelData) && data.currentFile == old(data.currentFile)
    {
      var text := Strip(desc);
      var key := Key(c1, c2);
      if key.None? {
        return;
      }
      if text == "" {
        DeleteRelationship(c1, c2);
        return;
      }
      Dicts.PutDistinct(relationships, key.value, JStr(text));
      relationships := Dicts.Put(relationships, key.value, JStr(text));
      data.MarkModified();
    }
  }
}
