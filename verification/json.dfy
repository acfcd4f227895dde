/** The JSON-shaped Python values the core stores and inspects (`None`,
    booleans, integers, strings, lists and dicts with string keys), and the
    Python operations applied to them: `d.get(k, default)`, `d[k]`, `x[i]`,
    `len(x)`, `k in x`, iteration, truthiness, `isinstance` tests and
    `str(x)`. An operation Python would answer by raising (a `.get` on a list,
    a missing key, an index out of range, `len(None)`) yields `Raise`. */
module Json {
  import opened Wrappers
  import opened Text
  import Dicts

  /** A dict never repeats a key (`Dicts.DistinctKeys`). */
  datatype Json =
    | JNull
    | JBool(b: bool)
    | JNum(n: int)
    | JStr(s: string)
    | JArr(items: seq<Json>)
    | JObj(fields: seq<(string, Json)>)

  /** `bool(x)`. */
  predicate Truthy(j: Json) {
    match j
    case JNull => false
    case JBool(b) => b
    case JNum(n) => n != 0
    case JStr(s) => s != ""
    case JArr(items) => items != []
    case JObj(fields) => fields != []
  }

  /** `d.get(k, default)`: only a dict has `.get`. */
  function GetOr(j: Json, k: string, default: Json): (r: Py<Json>)
    ensures r.Ok? <==> j.JObj?
    ensures j.JObj? && !Dicts.HasKey(j.fields, k) ==> r == Ok(default)
    ensures j.JObj? && Dicts.HasKey(j.fields, k) ==> r.Ok? && (k, r.value) in j.fields
  {
    match j
    case JObj(fields) =>
      (match Dicts.Get(fields, k) case Some(v) => Ok(v) case None => Ok(default))
    case _ => Raise
  }

  /** `d[k]` with a string key: a dict that holds the key, otherwise raised. */
  function Field(j: Json, k: string): (r: Py<Json>)
    ensures r.Ok? <==> j.JObj? && Dicts.HasKey(j.fields, k)
    ensures r.Ok? ==> (k, r.value) in j.fields
  {
    match j
    case JObj(fields) =>
      (match Dicts.Get(fields, k) case Some(v) => Ok(v) case None => Raise)
    case _ => Raise
  }

  /** The position Python's `x[i]` reads in a sequence of length `n`, counting
      a negative `i` from the end; None is IndexError. */
  function PyIndex(i: int, n: nat): (r: Option<nat>)
    ensures r.Some? <==> -(n as int) <= i < n
    ensures r.Some? ==> r.value < n && r.value as int == (if i < 0 then i + n else i)
  {
    if 0 <= i < n then Some(i) else if -(n as int) <= i < 0 then Some(i + n) else None
  }

  /** `x[i]` with an integer index: a list gives an element, a string a
      one-character string; a dict has only string keys here, so it raises
      like every other value. */
  function At(j: Json, i: int): (r: Py<Json>)
    ensures r.Ok? <==> (j.JArr? && PyIndex(i, |j.items|).Some?) || (j.JStr? && PyIndex(i, |j.s|).Some?)
    ensures r.Ok? && j.JArr? ==> r.value == j.items[PyIndex(i, |j.items|).value]
  {
    match j
    case JArr(items) =>
      (match PyIndex(i, |items|) case Some(p) => Ok(items[p]) case None => Raise)
    case JStr(s) =>
      (match PyIndex(i, |s|) case Some(p) => Ok(JStr([s[p]])) case None => Raise)
    case _ => Raise
  }

  /** `len(x)`. */
  function Len(j: Json): (r: Py<nat>)
    ensures r.Ok? <==> j.JStr? || j.JArr? || j.JObj?
  {
    match j
    case JStr(s) => Ok(|s|)
    case JArr(items) => Ok(|items|)
    case JObj(fields) => Ok(|fields|)
    case _ => Raise
  }

  /** `k in x` for a string `k`: a key of a dict, an element of a list, a
      substring of a string; other values raise. */
  function ContainsKey(j: Json, k: string): (r: Py<bool>)
    ensures r.Ok? <==> j.JObj? || j.JArr? || j.JStr?
    ensures j.JObj? ==> r == Ok(Dicts.HasKey(j.fields, k))
  {
    match j
    case JObj(fields) => Ok(Dicts.HasKey(fields, k))
    case JArr(items) => Ok(JStr(k) in items)
    case JStr(s) => Ok(Text.Contains(s, k))
    case _ => Raise
  }

  /** The elements `for x in j` visits: list elements, one-character strings,
      dict keys. */
  function Iterate(j: Json): (r: Py<seq<Json>>)
    ensures r.Ok? <==> j.JArr? || j.JStr? || j.JObj?
    ensures j.JArr? ==> r == Ok(j.items)
    ensures r.Ok? && j.JObj? ==> |r.value| == |j.fields|
  {
    match j
    case JArr(items) => Ok(items)
    case JStr(s) => Ok(seq(|s|, i requires 0 <= i < |s| => JStr([s[i]])))
    case JObj(fields) => Ok(seq(|fields|, i requires 0 <= i < |fields| => JStr(fields[i].0)))
    case _ => Raise
  }

  /** `repr(s)` for a string: single quotes unless the text holds a single
      quote and no double quote; backslash, the quote in use, newline,
      carriage return and tab are escaped. */
  function QuoteString(s: string): (r: string)
    ensures |r| >= 2
  {
    var q := if '\'' in s && '"' !in s then '"' else '\'';
    [q] + EscapeChars(s, q) + [q]
  }

  function EscapeChars(s: string, q: char): string {
    if s == [] then ""
    else
      var c := s[0];
      var e :=
        if c == '\\' then "\\\\"
        else if c == q then ['\\', q]
        else if c == '\n' then "\\n"
        else if c == '\r' then "\\r"
        else if c == '\t' then "\\t"
        else [c];
      e + EscapeChars(s[1..], q)
  }

  /** `repr(x)`, which is how the elements of a list or dict are rendered. */
  function Repr(j: Json): string
  {
    match j
    case JNull => "None"
    case JBool(b) => if b then "True" else "False"
    case JNum(n) => IntToString(n)
    case JStr(s) => QuoteString(s)
    case JArr(items) => "[" + ReprItems(items, j) + "]"
    case JObj(fields) => "{" + ReprFields(fields, j) + "}"
  }

  /** `str(x)`, which an f-string substitutes for `{x}`: the text itself for a
      string, `repr(x)` for anything else. */
  function Str(j: Json): (r: string)
    ensures j.JStr? ==> r == j.s
    ensures j.JNum? ==> r == IntToString(j.n)
    ensures j.JNull? ==> r == "None"
  {
    if j.JStr? then j.s else Repr(j)
  }

  function ReprItems(items: seq<Json>, ghost parent: Json): string
    requires forall i :: 0 <= i < |items| ==> items[i] < parent
    decreases parent, |items|
  {
    if items == [] then ""
    else if |items| == 1 then Repr(items[0])
    else Repr(items[0]) + ", " + ReprItems(items[1..], parent)
  }

  function ReprFields(fields: seq<(string, Json)>, ghost parent: Json): string
    requires forall i :: 0 <= i < |fields| ==> fields[i].1 < parent
    decreases parent, |fields|
  {
    if fields == [] then ""
    else
      var head := QuoteString(fields[0].0) + ": " + Repr(fields[0].1);
      if |fields| == 1 then head else head + ", " + ReprFields(fields[1..], parent)
  }

  /** A dict value built from pairs, later pairs overwriting earlier ones. */
  function Obj(pairs: seq<(string, Json)>): (j: Json)
    ensures j.JObj? && Dicts.DistinctKeys(j.fields)
  {
    Dicts.FromPairsKeys(pairs, "");
    JObj(Dicts.FromPairs(pairs))
  }
}
