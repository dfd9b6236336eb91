/**
 * `comparar_archivos_finales`, `generar_archivos_diferenciacion` and
 * `crear_archivo_final`: the combined products are matched by clave against
 * the last final snapshot, split into new, common and dropped products, and
 * the new snapshot keeps the common and new ones.
 */
module Comparison {
  import opened Common
  import opened ClaveOrder

  /** A dict keyed by clave, in insertion order. Keys are JSON values, as in the scripts. */
  type Keyed = seq<(Json, Json)>

  /** `prod['clave']` when `prod` is a dict that has one. */
  function ClaveField(v: Json): Option<Json>
  {
    if v.JObj? then Get(v.fields, "clave") else None
  }

  /**
   * One element of `{prod['clave']: prod for prod in data if 'clave' in prod}`:
   * None when `'clave' in prod` is false, the clave when it holds, and an
   * error when the membership test, the subscript or the hash raises.
   */
  function ClaveOf(prod: Json): (r: Result<Option<Json>>)
    ensures r.Ok? && r.value.Some? ==> ClaveField(prod) == r.value && Hashable(r.value.value)
    ensures prod.JObj? && ClaveField(prod).Some? && Hashable(ClaveField(prod).value) ==> r == Ok(ClaveField(prod))
    ensures prod.JObj? && ClaveField(prod).None? ==> r == Ok(None)
  {
    match prod
    case JObj(fields) =>
      var c := Get(fields, "clave");
      if c.None? then Ok(None)
      else if Hashable(c.value) then Ok(c)
      else Err("TypeError: unhashable type")
    case JStr(s) =>
      // `'clave' in s` is a substring test; `s['clave']` then raises
      if ContainsSub(s, "clave") then Err("TypeError: string indices must be integers") else Ok(None)
    case JList(items) =>
      if JStr("clave") in items then Err("TypeError: list indices must be integers") else Ok(None)
    case _ => Err("TypeError: argument of type is not iterable")
  }

  /** Every entry is stored under the record's own clave. */
  predicate OwnClaves(m: Keyed)
  {
    forall e :: e in m ==> ClaveField(e.1) == Some(e.0)
  }

  /** The dict comprehension over the records, in order; a later record with the same clave replaces the earlier one in place. */
  function KeyedMap(recs: seq<Json>): (r: Result<Keyed>)
    ensures r.Ok? ==> OwnClaves(r.value) && |r.value| <= |recs|
    ensures r.Ok? ==> forall e :: e in r.value ==> e.1 in recs
  {
    if recs == [] then Ok([])
    else
      var prod := recs[|recs| - 1];
      match KeyedMap(recs[..|recs| - 1])
      case Err(e) => Err(e)
      case Ok(m) =>
        match ClaveOf(prod)
        case Err(e) => Err(e)
        case Ok(None) => Ok(m)
        case Ok(Some(c)) => Ok(Put(m, c, prod))
  }

  /** Every record that has a hashable clave ends up under that clave. */
  lemma {:induction false} KeyedMapCoversClaves(recs: seq<Json>, i: nat)
    requires KeyedMap(recs).Ok? && i < |recs|
    requires ClaveOf(recs[i]).Ok? && ClaveOf(recs[i]).value.Some?
    ensures HasKey(KeyedMap(recs).value, ClaveOf(recs[i]).value.value)
  {
    var init := recs[..|recs| - 1];
    assert KeyedMap(init).Ok?;
    var c := ClaveOf(recs[i]).value.value;
    if i < |recs| - 1 {
      assert init[i] == recs[i];
      KeyedMapCoversClaves(init, i);
      var m := KeyedMap(init).value;
      var last := recs[|recs| - 1];
      if ClaveOf(last).value.Some? && ClaveOf(last).value.value != c {
        assert Get(KeyedMap(recs).value, c) == Get(m, c);
      }
    }
  }

  /** The dict read from one JSON file. */
  function KeyedOf(data: Json): Result<Keyed>
  {
    match Iterated(data)
    case Err(e) => Err(e)
    case Ok(recs) => KeyedMap(recs)
  }

  /** The entries of `c` whose clave is (or is not) a key of `f`, in the order of `c`. */
  function Entries(c: Keyed, f: Keyed, inF: bool): (r: Keyed)
    ensures |r| <= |c|
    ensures forall e :: e in r <==> e in c && HasKey(f, e.0) == inF
  {
    if c == [] then []
    else
      assert forall e :: e in c <==> e == c[0] || e in c[1..];
      (if HasKey(f, c[0].0) == inF then [c[0]] else []) + Entries(c[1..], f, inF)
  }

  datatype Diff = Diff(nuevos: seq<Json>, comun: seq<Json>, antiguos: seq<Json>)

  /**
   * The three lists: the combined products whose clave the final snapshot
   * lacks, those it has, and the final snapshot's products whose clave is no
   * longer combined.
   */
  function Differentiate(c: Keyed, f: Keyed): Diff
  {
    Diff(Values(Entries(c, f, false)), Values(Entries(c, f, true)), Values(Entries(f, c, false)))
  }

  /** How the final snapshot file could be opened. */
  datatype FinalFile = NotFound | Unreadable | Loaded(data: Json)

  /**
   * `comparar_archivos_finales`: `combinado` is None when the combined file
   * cannot be read or parsed. A missing final snapshot counts as empty; one
   * that cannot be read or parsed raises.
   */
  function Compare(combinado: Option<Json>, final: FinalFile): (r: Result<Diff>)
    ensures combinado.None? || final.Unreadable? ==> r.Err?
    ensures combinado.Some? && KeyedOf(combinado.value).Ok? && final.NotFound? ==>
              r == Ok(Differentiate(KeyedOf(combinado.value).value, []))
    ensures r.Ok? ==> combinado.Some? && KeyedOf(combinado.value).Ok?
  {
    if combinado.None? then Err("Error al leer el archivo combinado")
    else
      match KeyedOf(combinado.value)
      case Err(e) => Err(e)
      case Ok(c) =>
        match final
        case NotFound => Ok(Differentiate(c, []))
        case Unreadable => Err("Error al leer el archivo final")
        case Loaded(data) =>
          match KeyedOf(data)
          case Err(e) => Err(e)
          case Ok(f) => Ok(Differentiate(c, f))
  }

  // ---------------------------------------------------------------
  // The partition
  // ---------------------------------------------------------------

  lemma ValuesConcat(a: Keyed, b: Keyed)
    ensures Values(a + b) == Values(a) + Values(b)
  {
  }

  /** The combined products are split between new and common with nothing lost or repeated. */
  lemma {:induction false} EntriesPartition(c: Keyed, f: Keyed)
    ensures |Entries(c, f, false)| + |Entries(c, f, true)| == |c|
    ensures multiset(Values(Entries(c, f, false))) + multiset(Values(Entries(c, f, true))) == multiset(Values(c))
  {
    if c != [] {
      EntriesPartition(c[1..], f);
      var b := HasKey(f, c[0].0);
      var head := [c[0]];
      ValuesConcat(head, Entries(c[1..], f, b));
      ValuesConcat([], Entries(c[1..], f, !b));
      assert c == head + c[1..];
      ValuesConcat(head, c[1..]);
    }
  }

  /** With no previous snapshot, everything is new. */
  lemma FirstRunAllNew(c: Keyed)
    ensures Differentiate(c, []) == Diff(Values(c), [], [])
  {
    var n := Entries(c, [], false);
    forall i | 0 <= i < |c| ensures i < |n| && n[i] == c[i] {
      EntriesAllWhenNoneExcluded(c, i);
    }
    if c != [] { EntriesAllWhenNoneExcluded(c, |c| - 1); }
    assert n == c;
    EntriesPartition(c, []);
    assert Entries(c, [], true) == [];
  }

  lemma {:induction false} EntriesAllWhenNoneExcluded(c: Keyed, i: nat)
    requires i < |c|
    ensures i < |Entries(c, [], false)| && Entries(c, [], false)[i] == c[i]
  {
    assert Entries(c, [], false) == [c[0]] + Entries(c[1..], [], false);
    if i > 0 { EntriesAllWhenNoneExcluded(c[1..], i - 1); }
  }

  /** A record's clave decides its list: new ones are absent from the old snapshot, common ones present, dropped ones no longer combined. */
  lemma DiffByClave(c: Keyed, f: Keyed)
    requires OwnClaves(c) && OwnClaves(f)
    ensures forall v :: v in Differentiate(c, f).nuevos ==>
              v in Values(c) && ClaveField(v).Some? && HasKey(c, ClaveField(v).value) && !HasKey(f, ClaveField(v).value)
    ensures forall v :: v in Differentiate(c, f).comun ==>
              v in Values(c) && ClaveField(v).Some? && HasKey(c, ClaveField(v).value) && HasKey(f, ClaveField(v).value)
    ensures forall v :: v in Differentiate(c, f).antiguos ==>
              v in Values(f) && ClaveField(v).Some? && HasKey(f, ClaveField(v).value) && !HasKey(c, ClaveField(v).value)
  {
    forall v, b | v in Values(Entries(c, f, b))
      ensures v in Values(c) && ClaveField(v).Some? && HasKey(c, ClaveField(v).value) && HasKey(f, ClaveField(v).value) == b
    {
      var es := Entries(c, f, b);
      var i :| 0 <= i < |es| && Values(es)[i] == v;
      assert es[i] in c;
      var j :| 0 <= j < |c| && c[j] == es[i];
      assert Values(c)[j] == v;
    }
    forall v | v in Values(Entries(f, c, false))
      ensures v in Values(f) && ClaveField(v).Some? && HasKey(f, ClaveField(v).value) && !HasKey(c, ClaveField(v).value)
    {
      var es := Entries(f, c, false);
      var i :| 0 <= i < |es| && Values(es)[i] == v;
      assert es[i] in f;
      var j :| 0 <= j < |f| && f[j] == es[i];
      assert Values(f)[j] == v;
    }
  }

  // ---------------------------------------------------------------
  // The files written
  // ---------------------------------------------------------------

  /** `generar_archivos_diferenciacion`: the category, the file prefix and the sorted records of each file, in writing order. */
  function DifferenceFiles(d: Diff): (r: seq<(string, string, seq<Json>)>)
    ensures |r| == 3 && r[0].0 == "Comun" && r[1].0 == "Nuevo" && r[2].0 == "Antiguo"
    ensures multiset(r[0].2) == multiset(d.comun) && multiset(r[1].2) == multiset(d.nuevos)
            && multiset(r[2].2) == multiset(d.antiguos)
    ensures forall i :: 0 <= i < 3 ==> ByClave(r[i].2)
  {
    [("Comun", "comunes", SortByClave(d.comun)), ("Nuevo", "nuevos", SortByClave(d.nuevos)),
     ("Antiguo", "antiguos", SortByClave(d.antiguos))]
  }

  /** `crear_archivo_final`: the common and new products, sorted by clave. */
  function FinalSnapshot(d: Diff): seq<Json>
  {
    SortByClave(d.comun + d.nuevos)
  }

  /**
   * The new snapshot is exactly the combined products, sorted by clave: the
   * dropped products are gone and every combined product is kept once.
   */
  lemma FinalSnapshotIsCombined(c: Keyed, f: Keyed)
    ensures ByClave(FinalSnapshot(Differentiate(c, f)))
    ensures multiset(FinalSnapshot(Differentiate(c, f))) == multiset(Values(c))
  {
    EntriesPartition(c, f);
  }

  /** No dropped product shares its clave with a product of the new snapshot. */
  lemma DroppedNotInSnapshot(c: Keyed, f: Keyed)
    requires OwnClaves(c) && OwnClaves(f)
    ensures forall v, w :: v in Differentiate(c, f).antiguos && w in FinalSnapshot(Differentiate(c, f)) ==>
              ClaveField(v) != ClaveField(w)
  {
    FinalSnapshotIsCombined(c, f);
    DiffByClave(c, f);
    forall v, w | v in Differentiate(c, f).antiguos && w in FinalSnapshot(Differentiate(c, f))
      ensures ClaveField(v) != ClaveField(w)
    {
      assert w in multiset(Values(c));
      var j :| 0 <= j < |c| && Values(c)[j] == w;
      assert c[j] in c;
    }
  }
}
