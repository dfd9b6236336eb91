/**
 * `sorted(records, key=lambda x: x.get('clave', ''))`, the order in which
 * the combined file, the three difference files and the final snapshot are
 * written.
 */
module ClaveOrder {
  import opened Common

  /**
   * The sort key of a record: its clave when that is a string, and "" when
   * the record has none. A clave of another type (null, a number) also sorts
   * as "" here; see `SortByClaveAsWritten` for what the scripts do with it.
   */
  function SortKey(rec: Json): string
  {
    if rec.JObj? then
      var c := Get(rec.fields, "clave");
      if c.Some? && c.value.JStr? then c.value.s else ""
    else ""
  }

  predicate ByClave(s: seq<Json>)
  {
    forall i, j :: 0 <= i < j < |s| ==> StrLe(SortKey(s[i]), SortKey(s[j]))
  }

  /** The position before the first record whose key is not below the key of `x`. */
  function ClaveInsertIndex(x: Json, s: seq<Json>): (k: nat)
    ensures k <= |s|
    ensures forall j :: 0 <= j < k ==> !StrLe(SortKey(x), SortKey(s[j]))
    ensures k < |s| ==> StrLe(SortKey(x), SortKey(s[k]))
  {
    if s == [] || StrLe(SortKey(x), SortKey(s[0])) then 0 else 1 + ClaveInsertIndex(x, s[1..])
  }

  lemma ClaveInsertKeepsOrder(x: Json, s: seq<Json>, k: nat)
    requires ByClave(s) && k <= |s|
    requires forall j :: 0 <= j < k ==> !StrLe(SortKey(x), SortKey(s[j]))
    requires k < |s| ==> StrLe(SortKey(x), SortKey(s[k]))
    ensures ByClave(s[..k] + [x] + s[k..])
  {
    var r := s[..k] + [x] + s[k..];
    forall i, j | 0 <= i < j < |r| ensures StrLe(SortKey(r[i]), SortKey(r[j])) {
      if i < k && j == k {
        StrLeTotal(SortKey(x), SortKey(s[i]));
      } else if i < k && j > k {
        assert r[j] == s[j - 1];
      } else if i == k && j > k {
        assert r[j] == s[j - 1];
        if j - 1 > k { StrLeTrans(SortKey(x), SortKey(s[k]), SortKey(s[j - 1])); }
      } else if i > k {
        assert r[i] == s[i - 1] && r[j] == s[j - 1];
      }
    }
  }

  /** Inserts `x` before every record with a key not below its own, so that equal keys keep their order. */
  function InsertByClave(x: Json, s: seq<Json>): (r: seq<Json>)
    requires ByClave(s)
    ensures ByClave(r)
    ensures multiset(r) == multiset(s) + multiset{x}
  {
    var k := ClaveInsertIndex(x, s);
    ClaveInsertKeepsOrder(x, s, k);
    Common.SplitAt(s, k);
    s[..k] + [x] + s[k..]
  }

  /** A stable sort by clave: sorted, and a permutation of its input. */
  function SortByClave(s: seq<Json>): (r: seq<Json>)
    ensures ByClave(r)
    ensures multiset(r) == multiset(s)
    ensures |r| == |s|
  {
    if s == [] then []
    else
      assert s == [s[0]] + s[1..];
      var r := InsertByClave(s[0], SortByClave(s[1..]));
      assert |r| == |multiset(r)|;
      r
  }

  // ---------------------------------------------------------------
  // The sort as the scripts run it
  // ---------------------------------------------------------------

  /**
   * How Python orders the key `x.get('clave', '')`: a missing clave and a
   * string clave are strings; numbers and booleans compare with each
   * other; lists compare with lists; None and dicts compare with nothing,
   * not even with themselves. A record that is not a dict has no `.get`.
   */
  datatype KeyKind = StrKey | NumKey | ListKey | Unorderable | NoGet

  function KindOf(rec: Json): KeyKind
  {
    if !rec.JObj? then NoGet
    else
      match Get(rec.fields, "clave")
      case None => StrKey
      case Some(c) =>
        match c
        case JStr(_) => StrKey
        case JBool(_) => NumKey
        case JInt(_) => NumKey
        case JFloat(_) => NumKey
        case JList(_) => ListKey
        case JNull => Unorderable
        case JObj(_) => Unorderable
  }

  /**
   * `sorted(..., key=lambda x: x.get('clave', ''))` raises: a key cannot be
   * computed, or there are two or more records and a key that orders
   * against nothing, or two keys of kinds Python cannot compare. (Every
   * comparison sort compares each record with some other when there are
   * two or more, and compares the neighbours of its output, so a mix of
   * kinds always meets.)
   */
  predicate SortRaises(s: seq<Json>)
  {
    || (exists i :: 0 <= i < |s| && KindOf(s[i]) == NoGet)
    || (|s| >= 2 && exists i :: 0 <= i < |s| && KindOf(s[i]) == Unorderable)
    || (exists i, j :: 0 <= i < |s| && 0 <= j < |s| && KindOf(s[i]) != KindOf(s[j]))
  }

  /** The records as the scripts write them: every one of them a dict whose clave is a string or missing. */
  predicate StringKeyed(s: seq<Json>)
  {
    forall i :: 0 <= i < |s| ==> KindOf(s[i]) == StrKey
  }

  /**
   * The sort as written: it raises TypeError (or AttributeError) exactly
   * when `SortRaises`; otherwise it is the stable sort by clave, which on
   * string keys is what Python computes.
   */
  function SortByClaveAsWritten(s: seq<Json>): (r: Result<seq<Json>>)
    ensures r.Err? <==> SortRaises(s)
    ensures StringKeyed(s) ==> r == Ok(SortByClave(s))
  {
    if SortRaises(s) then Err("TypeError") else Ok(SortByClave(s))
  }

  /**
   * A record kept under a synthetic key because its clave is falsy but not
   * a string (null, 0, false, an empty list or dict) makes the sort of the
   * combined products raise as soon as another record has a string clave,
   * while the corrected key sorts it with the records whose clave is "".
   */
  lemma {:induction false} FalsyClaveAbortsSort(c: Json, name: string)
    requires c == JNull || c == JInt(0) || c == JBool(false) || c == JFloat(0.0) || c == JList([]) || c == JObj([])
    ensures SortByClaveAsWritten([JObj([("clave", c)]), JObj([("clave", JStr(name))])]).Err?
    ensures SortKey(JObj([("clave", c)])) == ""
  {
    var s := [JObj([("clave", c)]), JObj([("clave", JStr(name))])];
    assert KindOf(s[0]) != KindOf(s[1]);
  }

  /** Two null claves raise too: None does not compare even with None. */
  lemma NullClavesAbortSort()
    ensures SortByClaveAsWritten([JObj([("clave", JNull)]), JObj([("clave", JNull)])]).Err?
  {
    var s := [JObj([("clave", JNull)]), JObj([("clave", JNull)])];
    assert KindOf(s[0]) == Unorderable;
  }

  /** A single record is never compared: only a key that cannot be computed raises. */
  lemma SingleRecordSorts(rec: Json)
    requires rec.JObj?
    ensures SortByClaveAsWritten([rec]) == Ok([rec])
  {
    var s := [rec];
    assert forall i, j :: 0 <= i < |s| && 0 <= j < |s| ==> KindOf(s[i]) == KindOf(s[j]);
    assert KindOf(s[0]) != NoGet;
    assert !SortRaises(s);
    assert s[1..] == [] && SortByClave(s[1..]) == [];
    assert InsertByClave(rec, []) == [rec];
  }
}
