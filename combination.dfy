/**
 * `combinar_json_con_separador`: the newest feed file(s) of the JSON feed
 * directory and of the toner directory are folded, record by record, into
 * one dict keyed by clave; keyless records get a synthetic key; the values
 * are written sorted by clave.
 */
module Combination {
  import opened Common
  import opened FileSystem
  import opened ClaveOrder

  const SynthPrefix: string := "sin_clave_"

  /** `f"sin_clave_{n}"`. */
  function SynthKey(n: nat): (k: string)
    ensures StartsWith(k, SynthPrefix)
  {
    SynthPrefix + NatToString(n)
  }

  lemma SynthKeyInjective(a: nat, b: nat)
    requires SynthKey(a) == SynthKey(b)
    ensures a == b
  {
    assert SynthKey(a)[|SynthPrefix|..] == NatToString(a);
    assert SynthKey(b)[|SynthPrefix|..] == NatToString(b);
    NatToStringInjective(a, b);
  }

  /** How the fold files a record. */
  datatype Filing =
    | Keyed(clave: string)   // a truthy string clave
    | Keyless                // no clave, or a falsy one ("" or null)
    | Unfileable             // not an object, or a truthy clave that is not a string

  function FilingOf(rec: Json): Filing
  {
    if !rec.JObj? then Unfileable
    else
      var c := Get(rec.fields, "clave");
      if c.Some? && Truthy(c.value) then (if c.value.JStr? then Keyed(c.value.s) else Unfileable)
      else Keyless
  }

  /** The dict being built: clave to record, in insertion order. */
  type Combined = seq<(string, Json)>

  /** One step of the fold: `productos_combinados[clave] = producto`, or under `sin_clave_{len+1}`. */
  function FoldRecord(m: Combined, rec: Json): Result<Combined>
  {
    match FilingOf(rec)
    case Unfileable => Err("Error al procesar el archivo")
    case Keyed(k) => Ok(Put(m, k, rec))
    case Keyless => Ok(Put(m, SynthKey(|m| + 1), rec))
  }

  /** The fold over the records of one file, in order; the first error stops it. */
  function FoldRecords(m: Combined, recs: seq<Json>): Result<Combined>
  {
    if recs == [] then Ok(m)
    else
      match FoldRecords(m, recs[..|recs| - 1])
      case Err(e) => Err(e)
      case Ok(m') => FoldRecord(m', recs[|recs| - 1])
  }

  /** The records `json.load` gives for one file: a list as is, a single object as one record. */
  function PayloadRecords(e: FileEntry): Result<seq<Json>>
  {
    if !e.isFile || e.content.None? then Err("Error al leer el archivo JSON")
    else if e.content.value.JList? then Ok(e.content.value.items)
    else if e.content.value.JObj? then Ok([e.content.value])
    else Err("Error al procesar el archivo")
  }

  /** The fold over the files, in order. */
  function FoldFiles(m: Combined, files: Dir): Result<Combined>
  {
    if files == [] then Ok(m)
    else
      match FoldFiles(m, files[..|files| - 1])
      case Err(e) => Err(e)
      case Ok(m') =>
        match PayloadRecords(files[|files| - 1].1)
        case Err(e) => Err(e)
        case Ok(recs) => FoldRecords(m', recs)
  }

  /** The files read: the `cantidad` newest `.json` files of the first directory, then of the second. */
  function SelectedFiles(dir1: Dir, dir2: Dir, cantidad: nat): Dir
  {
    Latest(WithExtension(dir1, ".json"), cantidad) + Latest(WithExtension(dir2, ".json"), cantidad)
  }

  /** What the combined file holds: the values of the dict sorted by clave; an empty dict raises. */
  function CombinedSnapshot(dir1: Dir, dir2: Dir, cantidad: nat): Result<seq<Json>>
  {
    match FoldFiles([], SelectedFiles(dir1, dir2, cantidad))
    case Err(e) => Err(e)
    case Ok(m) => if m == [] then Err("No hay productos para combinar.") else Ok(SortByClave(Values(m)))
  }

  // ---------------------------------------------------------------
  // The loops
  // ---------------------------------------------------------------

  lemma FoldRecordsSnoc(m: Combined, recs: seq<Json>, i: nat)
    requires i < |recs|
    ensures FoldRecords(m, recs[..i + 1]) ==
              match FoldRecords(m, recs[..i])
              case Err(e) => Err(e)
              case Ok(m') => FoldRecord(m', recs[i])
  {
    assert recs[..i + 1][..i] == recs[..i];
  }

  /** Once the fold has failed on a prefix, it fails with the same error on the whole. */
  lemma {:induction false} FoldRecordsErrSticks(m: Combined, recs: seq<Json>, i: nat)
    requires i <= |recs| && FoldRecords(m, recs[..i]).Err?
    ensures FoldRecords(m, recs) == FoldRecords(m, recs[..i])
  {
    if i < |recs| {
      assert recs[..|recs| - 1][..i] == recs[..i];
      FoldRecordsErrSticks(m, recs[..|recs| - 1], i);
    } else {
      assert recs[..i] == recs;
    }
  }

  /** The loop over the products of one file. */
  method FoldPayload(m: Combined, recs: seq<Json>) returns (r: Result<Combined>)
    ensures r == FoldRecords(m, recs)
  {
    var acc := m;
    var i := 0;
    while i < |recs|
      invariant 0 <= i <= |recs|
      invariant FoldRecords(m, recs[..i]) == Ok(acc)
    {
      FoldRecordsSnoc(m, recs, i);
      var rec := recs[i];
      var step := FoldRecord(acc, rec);
      if step.Err? {
        FoldRecordsErrSticks(m, recs, i + 1);
        return step;
      }
      acc := step.value;
      i := i + 1;
    }
    assert recs[..i] == recs;
    return Ok(acc);
  }

  lemma FoldFilesSnoc(m: Combined, files: Dir, i: nat)
    requires i < |files|
    ensures FoldFiles(m, files[..i + 1]) ==
              match FoldFiles(m, files[..i])
              case Err(e) => Err(e)
              case Ok(m') =>
                match PayloadRecords(files[i].1)
                case Err(e) => Err(e)
                case Ok(recs) => FoldRecords(m', recs)
  {
    assert files[..i + 1][..i] == files[..i];
  }

  lemma {:induction false} FoldFilesErrSticks(m: Combined, files: Dir, i: nat)
    requires i <= |files| && FoldFiles(m, files[..i]).Err?
    ensures FoldFiles(m, files) == FoldFiles(m, files[..i])
  {
    if i < |files| {
      assert files[..|files| - 1][..i] == files[..i];
      FoldFilesErrSticks(m, files[..|files| - 1], i);
    } else {
      assert files[..i] == files;
    }
  }

  /**
   * `combinar_json_con_separador(dir1, dir2, salida, cantidad)` up to the
   * write: the sorted records, whose number is the count it returns.
   */
  method Combine(dir1: Dir, dir2: Dir, cantidad: nat) returns (r: Result<seq<Json>>)
    ensures r == CombinedSnapshot(dir1, dir2, cantidad)
  {
    var files := SelectedFiles(dir1, dir2, cantidad);
    var productos: Combined := [];
    var i := 0;
    while i < |files|
      invariant 0 <= i <= |files|
      invariant FoldFiles([], files[..i]) == Ok(productos)
    {
      FoldFilesSnoc([], files, i);
      var datos := PayloadRecords(files[i].1);
      if datos.Err? {
        FoldFilesErrSticks([], files, i + 1);
        return Err(datos.error);
      }
      var folded := FoldPayload(productos, datos.value);
      if folded.Err? {
        FoldFilesErrSticks([], files, i + 1);
        return Err(folded.error);
      }
      productos := folded.value;
      i := i + 1;
    }
    assert files[..i] == files;
    if productos == [] {
      return Err("No hay productos para combinar.");
    }
    return Ok(SortByClave(Values(productos)));
  }

  // ---------------------------------------------------------------
  // What the fold guarantees
  // ---------------------------------------------------------------

  /** The clave of a record filed under its own key. */
  predicate KeyedAs(rec: Json, k: string) { FilingOf(rec) == Keyed(k) }

  /**
   * Last write wins: after the fold, a clave holds the last record that
   * carries it (for a clave that does not look like a synthetic key).
   */
  lemma {:induction false} LastRecordWins(m: Combined, recs: seq<Json>, i: nat, k: string)
    requires i < |recs| && KeyedAs(recs[i], k) && !StartsWith(k, SynthPrefix)
    requires forall j :: i < j < |recs| ==> !KeyedAs(recs[j], k)
    requires FoldRecords(m, recs).Ok?
    ensures Get(FoldRecords(m, recs).value, k) == Some(recs[i])
  {
    var init := recs[..|recs| - 1];
    var last := recs[|recs| - 1];
    assert FoldRecords(m, init).Ok?;
    var m' := FoldRecords(m, init).value;
    if i < |recs| - 1 {
      LastRecordWins(m, init, i, k);
      match FilingOf(last)
      case Keyed(k2) =>
      case Keyless =>
        assert SynthKey(|m'| + 1) != k;
      case Unfileable =>
    }
  }

  /** Every synthetic key in the dict is numbered at most its size. */
  ghost predicate SyntheticKeysBounded(m: Combined)
  {
    forall n: nat :: HasKey(m, SynthKey(n)) ==> n <= |m|
  }

  /** No record is filed under a clave that looks like a synthetic key. */
  ghost predicate NoSyntheticClaves(recs: seq<Json>)
  {
    forall j, k :: 0 <= j < |recs| && KeyedAs(recs[j], k) ==> !StartsWith(k, SynthPrefix)
  }

  /** A keyless record never overwrites: its synthetic key is new and the dict grows by one. */
  lemma KeylessRecordIsAdded(m: Combined, rec: Json)
    requires SyntheticKeysBounded(m) && FilingOf(rec) == Keyless
    ensures FoldRecord(m, rec).Ok?
    ensures |FoldRecord(m, rec).value| == |m| + 1
    ensures forall k :: HasKey(m, k) ==> Get(FoldRecord(m, rec).value, k) == Get(m, k)
    ensures Get(FoldRecord(m, rec).value, SynthKey(|m| + 1)) == Some(rec)
  {
    assert !HasKey(m, SynthKey(|m| + 1));
  }

  lemma {:induction false} FoldKeepsSyntheticKeysBounded(m: Combined, recs: seq<Json>)
    requires SyntheticKeysBounded(m) && NoSyntheticClaves(recs)
    requires FoldRecords(m, recs).Ok?
    ensures SyntheticKeysBounded(FoldRecords(m, recs).value)
    ensures |FoldRecords(m, recs).value| >= |m|
  {
    if recs != [] {
      var init := recs[..|recs| - 1];
      var last := recs[|recs| - 1];
      assert FoldRecords(m, init).Ok?;
      FoldKeepsSyntheticKeysBounded(m, init);
      var m' := FoldRecords(m, init).value;
      var m'' := FoldRecords(m, recs).value;
      forall n: nat | HasKey(m'', SynthKey(n)) ensures n <= |m''| {
        match FilingOf(last)
        case Keyed(k) =>
          assert !StartsWith(k, SynthPrefix);
          assert Get(m'', SynthKey(n)) == Get(m', SynthKey(n));
        case Keyless =>
          if SynthKey(n) != SynthKey(|m'| + 1) {
            assert Get(m'', SynthKey(n)) == Get(m', SynthKey(n));
          } else {
            SynthKeyInjective(n, |m'| + 1);
          }
        case Unfileable =>
      }
    }
  }

  /**
   * A keyless record is never dropped: at the end of the fold it is still
   * stored, under a synthetic key of its own.
   */
  lemma {:induction false} KeylessRecordSurvives(m: Combined, recs: seq<Json>, i: nat) returns (n: nat)
    requires SyntheticKeysBounded(m) && NoSyntheticClaves(recs)
    requires i < |recs| && FilingOf(recs[i]) == Keyless
    requires FoldRecords(m, recs).Ok?
    ensures Get(FoldRecords(m, recs).value, SynthKey(n)) == Some(recs[i])
  {
    var init := recs[..|recs| - 1];
    var last := recs[|recs| - 1];
    assert FoldRecords(m, init).Ok?;
    var m' := FoldRecords(m, init).value;
    if i == |recs| - 1 {
      n := |m'| + 1;
    } else {
      assert NoSyntheticClaves(init) by {
        forall j, k | 0 <= j < |init| && KeyedAs(init[j], k) ensures !StartsWith(k, SynthPrefix) {
          assert init[j] == recs[j];
        }
      }
      n := KeylessRecordSurvives(m, init, i);
      FoldKeepsSyntheticKeysBounded(m, init);
      assert HasKey(m', SynthKey(n));
      match FilingOf(last)
      case Keyed(k) =>
        assert !StartsWith(k, SynthPrefix);
      case Keyless =>
      case Unfileable =>
    }
  }

  /** The combined file is sorted by clave, holds each value of the dict once, and is never empty. */
  lemma CombinedSnapshotShape(dir1: Dir, dir2: Dir, cantidad: nat)
    requires CombinedSnapshot(dir1, dir2, cantidad).Ok?
    ensures FoldFiles([], SelectedFiles(dir1, dir2, cantidad)).Ok?
    ensures var m := FoldFiles([], SelectedFiles(dir1, dir2, cantidad)).value;
            var out := CombinedSnapshot(dir1, dir2, cantidad).value;
            ByClave(out) && multiset(out) == multiset(Values(m)) && |out| == |m| >= 1
  {
  }
}
