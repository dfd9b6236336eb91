/**
 * The PDF upload job: every SKU whose data sheet was downloaded but not
 * yet uploaded has its local PDF sent by FTP, and the outcome with the
 * file's size in KB is written back to the `informaciontablas` table.
 * The FTP transfer and the database commit are oracles.
 */
module SubirPdf {
  import opened Common
  import opened FileSystem

  /** A row of `informaciontablas`; a SQL NULL is None. */
  datatype InfoRow = InfoRow(id: nat, sku: string, descargado: Option<int>, subido: Option<int>, tamanoKb: Option<int>)

  /** IDs are the table's primary key. */
  predicate DistinctIds(t: seq<InfoRow>)
  {
    forall i, j :: 0 <= i < j < |t| ==> t[i].id != t[j].id
  }

  // ---------------------------------------------------------------
  // obtener_skus
  // ---------------------------------------------------------------

  /** `PDF_Archivo_Descargado = 1 AND (PDF_Archivo_Subido IS NULL OR PDF_Archivo_Subido = 0)` */
  predicate Selected(r: InfoRow)
  {
    r.descargado == Some(1) && (r.subido.None? || r.subido == Some(0))
  }

  /** `obtener_skus`: the selected rows, in table order. */
  function ObtenerSkus(t: seq<InfoRow>): (r: seq<InfoRow>)
    ensures forall x :: x in r <==> x in t && Selected(x)
    ensures IsSubsequence(r, t)
  {
    if t == [] then []
    else
      var rest := ObtenerSkus(t[..|t| - 1]);
      var last := t[|t| - 1];
      assert forall x :: x in t <==> x in t[..|t| - 1] || x == last;
      assert t[..|t| - 1][..|t| - 1] == t[..|t| - 1];
      if Selected(last) then
        assert (rest + [last])[..|rest|] == rest;
        rest + [last]
      else rest
  }

  // ---------------------------------------------------------------
  // verificar_pdf
  // ---------------------------------------------------------------

  /** `os.path.join(base, sku, "PDF", f"{sku}.pdf")` */
  function PdfPath(base: string, sku: string): string
  {
    PathJoin(PathJoin(PathJoin(base, sku), "PDF"), sku + ".pdf")
  }

  /**
   * `verificar_pdf(sku)`: whether the PDF is a regular file, its path and
   * its size in whole KB; `files` maps each regular file to its size in
   * bytes.
   */
  function VerificarPdf(base: string, sku: string, files: map<string, nat>): (r: (bool, string, nat))
    ensures r.1 == PdfPath(base, sku)
    ensures r.0 <==> PdfPath(base, sku) in files
    ensures !r.0 ==> r.2 == 0
    ensures r.0 ==> r.2 * 1024 <= files[r.1] < (r.2 + 1) * 1024
  {
    var path := PdfPath(base, sku);
    if path in files then (true, path, files[path] / 1024) else (false, path, 0)
  }

  // ---------------------------------------------------------------
  // The upload loop of main
  // ---------------------------------------------------------------

  /** What happens to one selected row: found, uploaded, and the KB recorded. */
  datatype Outcome = Outcome(found: bool, uploaded: bool, kb: nat)

  /** `verificar_pdf` as the loop sees it: found, and the size in KB. */
  type Check = string -> (bool, nat)

  /** `verificar_pdf` over the regular files under `base`. */
  function CheckOf(base: string, files: map<string, nat>): Check
  {
    sku => (VerificarPdf(base, sku, files).0, VerificarPdf(base, sku, files).2)
  }

  function OutcomeOf(r: InfoRow, check: Check, uploadOk: string -> bool): (o: Outcome)
    ensures o.uploaded ==> o.found
    ensures !o.found ==> o.kb == 0
  {
    var (existe, kb) := check(r.sku);
    if existe then Outcome(true, uploadOk(r.sku), kb) else Outcome(false, false, 0)
  }

  /** `registrar_subida`: the row with this id takes the flag and the size. */
  function Register(t: seq<InfoRow>, id: nat, flag: int, kb: nat): (r: seq<InfoRow>)
    ensures |r| == |t|
    ensures forall i :: 0 <= i < |t| ==> r[i] == if t[i].id == id then t[i].(subido := Some(flag), tamanoKb := Some(kb)) else t[i]
  {
    seq(|t|, i requires 0 <= i < |t| => if t[i].id == id then t[i].(subido := Some(flag), tamanoKb := Some(kb)) else t[i])
  }

  /** The counters of the loop for the first rows of `skus`. */
  datatype Tally = Tally(encontrados: nat, subidos: nat, nuevosKb: nat)

  function Counters(skus: seq<InfoRow>, check: Check, uploadOk: string -> bool): (c: Tally)
  {
    if skus == [] then Tally(0, 0, 0)
    else
      var c := Counters(skus[..|skus| - 1], check, uploadOk);
      var o := OutcomeOf(skus[|skus| - 1], check, uploadOk);
      Tally(c.encontrados + (if o.found then 1 else 0),
            c.subidos + (if o.uploaded then 1 else 0),
            c.nuevosKb + (if o.uploaded then o.kb else 0))
  }

  /** A `registros_subidos` entry: ID, SKU and the uploaded flag. */
  datatype Registro = Registro(id: nat, sku: string, subido: int)

  /**
   * The loop of `main` over the selected rows. `check` is `verificar_pdf`
   * (`CheckOf` over the files on disk), `uploadOk` whether the FTP upload
   * of a SKU's PDF succeeds, `registerOk` whether `registrar_subida`
   * commits for an id (a failure is rolled back and logged).
   */
  method UploadAll(table: seq<InfoRow>, check: Check,
                   uploadOk: string -> bool, registerOk: nat -> bool)
    returns (procesados: nat, tally: Tally, registros: seq<Registro>, table': seq<InfoRow>)
    ensures procesados == |ObtenerSkus(table)|
    ensures tally == Counters(ObtenerSkus(table), check, uploadOk)
    ensures |registros| == procesados
    ensures forall i :: 0 <= i < procesados ==>
      var r := ObtenerSkus(table)[i];
      registros[i] == Registro(r.id, r.sku, if OutcomeOf(r, check, uploadOk).uploaded then 1 else 0)
    ensures table' == Registered(table, ObtenerSkus(table), check, uploadOk, registerOk)
  {
    var skus := ObtenerSkus(table);
    procesados := |skus|;
    tally, registros, table' := UploadEach(skus, table, check, uploadOk, registerOk);
  }

  /** One pass over `skus`: check the PDF, upload it, register the outcome. */
  method UploadEach(skus: seq<InfoRow>, table: seq<InfoRow>, check: Check,
                    uploadOk: string -> bool, registerOk: nat -> bool)
    returns (tally: Tally, registros: seq<Registro>, table': seq<InfoRow>)
    ensures tally == Counters(skus, check, uploadOk)
    ensures |registros| == |skus|
    ensures forall i :: 0 <= i < |skus| ==>
      registros[i] == Registro(skus[i].id, skus[i].sku, if OutcomeOf(skus[i], check, uploadOk).uploaded then 1 else 0)
    ensures table' == Registered(table, skus, check, uploadOk, registerOk)
  {
    tally := Tally(0, 0, 0);
    registros := [];
    table' := table;
    var i := 0;
    while i < |skus|
      invariant 0 <= i <= |skus|
      invariant tally == Counters(skus[..i], check, uploadOk)
      invariant |registros| == i
      invariant forall k :: 0 <= k < i ==>
        registros[k] == Registro(skus[k].id, skus[k].sku, if OutcomeOf(skus[k], check, uploadOk).uploaded then 1 else 0)
      invariant table' == Registered(table, skus[..i], check, uploadOk, registerOk)
    {
      var r := skus[i];
      var o;
      tally, o := UploadOne(r, tally, check, uploadOk);
      if registerOk(r.id) {
        table' := Register(table', r.id, if o.uploaded then 1 else 0, o.kb);
      }
      registros := registros + [Registro(r.id, r.sku, if o.uploaded then 1 else 0)];
      TakeSnoc(skus, i);
      CountersSnoc(skus[..i], r, check, uploadOk);
      RegisteredSnoc(table, skus[..i], r, check, uploadOk, registerOk);
      i := i + 1;
    }
    TakeAll(skus);
  }

  /** Checking and uploading one row's PDF, with the counters it bumps. */
  method UploadOne(r: InfoRow, tally: Tally, check: Check, uploadOk: string -> bool) returns (tally': Tally, o: Outcome)
    ensures o == OutcomeOf(r, check, uploadOk)
    ensures tally' == Tally(tally.encontrados + (if o.found then 1 else 0), tally.subidos + (if o.uploaded then 1 else 0),
                            tally.nuevosKb + (if o.uploaded then o.kb else 0))
  {
    tally' := tally;
    var (existe, kb) := check(r.sku);
    var exito := false;
    if existe {
      tally' := tally'.(encontrados := tally'.encontrados + 1);
      exito := uploadOk(r.sku);
      if exito {
        tally' := tally'.(subidos := tally'.subidos + 1, nuevosKb := tally'.nuevosKb + kb);
      }
    }
    // a missing PDF is registered as not uploaded with size 0
    o := Outcome(existe, exito, if existe then kb else 0);
  }

  /** The table once the outcomes of `skus` are registered in order. */
  function Registered(t: seq<InfoRow>, skus: seq<InfoRow>, check: Check,
                      uploadOk: string -> bool, registerOk: nat -> bool): seq<InfoRow>
  {
    if skus == [] then t
    else
      var prev := Registered(t, skus[..|skus| - 1], check, uploadOk, registerOk);
      var r := skus[|skus| - 1];
      var o := OutcomeOf(r, check, uploadOk);
      if registerOk(r.id) then Register(prev, r.id, if o.uploaded then 1 else 0, o.kb) else prev
  }

  lemma CountersSnoc(s: seq<InfoRow>, x: InfoRow, check: Check, uploadOk: string -> bool)
    ensures var c := Counters(s, check, uploadOk);
      var o := OutcomeOf(x, check, uploadOk);
      Counters(s + [x], check, uploadOk) ==
        Tally(c.encontrados + (if o.found then 1 else 0), c.subidos + (if o.uploaded then 1 else 0),
              c.nuevosKb + (if o.uploaded then o.kb else 0))
  {
    SnocTake(s, x);
  }

  lemma RegisteredSnoc(t: seq<InfoRow>, s: seq<InfoRow>, x: InfoRow, check: Check,
                       uploadOk: string -> bool, registerOk: nat -> bool)
    ensures var prev := Registered(t, s, check, uploadOk, registerOk);
      var o := OutcomeOf(x, check, uploadOk);
      Registered(t, s + [x], check, uploadOk, registerOk) ==
        if registerOk(x.id) then Register(prev, x.id, if o.uploaded then 1 else 0, o.kb) else prev
  {
    SnocTake(s, x);
  }

  /** The counters are ordered: uploaded ≤ found ≤ processed. */
  lemma {:induction false} CountersOrdered(skus: seq<InfoRow>, check: Check, uploadOk: string -> bool)
    ensures var c := Counters(skus, check, uploadOk);
      c.subidos <= c.encontrados <= |skus|
  {
    if skus != [] {
      CountersOrdered(skus[..|skus| - 1], check, uploadOk);
    }
  }

  // ---------------------------------------------------------------
  // calcular_total_subidos
  // ---------------------------------------------------------------

  /** `SUM(PDF_Archivo_Tamano_KB) WHERE PDF_Archivo_Subido = 1`, NULL sizes adding nothing. */
  function SumUploadedKb(t: seq<InfoRow>): int
  {
    if t == [] then 0
    else
      var last := t[|t| - 1];
      SumUploadedKb(t[..|t| - 1]) + (if last.subido == Some(1) && last.tamanoKb.Some? then last.tamanoKb.value else 0)
  }

  /**
   * `calcular_total_subidos`: the sum, or 0 when it is NULL (no uploaded
   * row with a size) or the query fails (`queryOk` false).
   */
  function CalcularTotalSubidos(t: seq<InfoRow>, queryOk: bool): (r: int)
    ensures !queryOk ==> r == 0
    ensures (forall i :: 0 <= i < |t| ==> t[i].subido != Some(1)) ==> r == 0
  {
    if queryOk then
      NoUploadsSumZero(t);
      SumUploadedKb(t)
    else 0
  }

  lemma {:induction false} NoUploadsSumZero(t: seq<InfoRow>)
    ensures (forall i :: 0 <= i < |t| ==> t[i].subido != Some(1)) ==> SumUploadedKb(t) == 0
  {
    if t != [] {
      NoUploadsSumZero(t[..|t| - 1]);
    }
  }

  /** Some row carries this id. */
  predicate HasId(t: seq<InfoRow>, id: nat)
  {
    exists i :: 0 <= i < |t| && t[i].id == id
  }

  /** Registering a row that was not counted as uploaded adds its size exactly when the flag is 1. */
  lemma {:induction false} RegisterSum(t: seq<InfoRow>, id: nat, flag: int, kb: nat)
    requires DistinctIds(t)
    requires forall i :: 0 <= i < |t| && t[i].id == id ==> t[i].subido != Some(1)
    ensures SumUploadedKb(Register(t, id, flag, kb)) == SumUploadedKb(t) + (if flag == 1 && HasId(t, id) then kb else 0)
  {
    if t != [] {
      var p := t[..|t| - 1];
      RegisterInit(t, id, flag, kb);
      RegisterSum(p, id, flag, kb);
      if t[|t| - 1].id == id {
        assert !HasId(p, id);
        assert HasId(t, id);
      } else {
        HasIdInit(t, id);
      }
    }
  }

  /** Registering commutes with dropping the last row. */
  lemma RegisterInit(t: seq<InfoRow>, id: nat, flag: int, kb: nat)
    requires t != []
    ensures Register(t[..|t| - 1], id, flag, kb) == Register(t, id, flag, kb)[..|t| - 1]
  {
    var a, b := Register(t[..|t| - 1], id, flag, kb), Register(t, id, flag, kb)[..|t| - 1];
    assert forall i :: 0 <= i < |a| ==> a[i] == b[i];
  }

  /** A last row with another id does not change whether the id occurs. */
  lemma HasIdInit(t: seq<InfoRow>, id: nat)
    requires t != [] && t[|t| - 1].id != id
    ensures HasId(t, id) <==> HasId(t[..|t| - 1], id)
  {
    if HasId(t, id) {
      var i :| 0 <= i < |t| && t[i].id == id;
      assert t[..|t| - 1][i].id == id;
    }
  }

  // ---------------------------------------------------------------
  // The reported total after a run
  // ---------------------------------------------------------------

  /** Selecting rows keeps the ids distinct. */
  lemma {:induction false} SelectedIdsDistinct(t: seq<InfoRow>)
    requires DistinctIds(t)
    ensures DistinctIds(ObtenerSkus(t))
  {
    if t != [] {
      var p := t[..|t| - 1];
      var last := t[|t| - 1];
      SelectedIdsDistinct(p);
      var rest := ObtenerSkus(p);
      if Selected(last) {
        forall j | 0 <= j < |rest| ensures rest[j].id != last.id {
          assert rest[j] in p;
          var k :| 0 <= k < |p| && p[k] == rest[j];
          assert t[k] == rest[j];
        }
      }
    }
  }

  /** Registering keeps every id, and rows whose id was not processed are untouched. */
  lemma {:induction false} RegisteredFrame(t: seq<InfoRow>, s: seq<InfoRow>, check: Check,
                                           uploadOk: string -> bool, registerOk: nat -> bool)
    ensures var r := Registered(t, s, check, uploadOk, registerOk);
      |r| == |t| &&
      forall i :: 0 <= i < |t| ==>
        r[i].id == t[i].id && ((forall k :: 0 <= k < |s| ==> s[k].id != t[i].id) ==> r[i] == t[i])
  {
    if s != [] {
      var p := s[..|s| - 1];
      RegisteredFrame(t, p, check, uploadOk, registerOk);
      forall i | 0 <= i < |t| && (forall k :: 0 <= k < |s| ==> s[k].id != t[i].id)
        ensures forall k :: 0 <= k < |p| ==> p[k].id != t[i].id
      {
        forall k | 0 <= k < |p| ensures p[k].id != t[i].id {
          assert p[k] == s[k];
        }
      }
    }
  }

  /**
   * With every registration committed, the uploaded total grows by the KB
   * uploaded for `s`, provided each processed id names one row that was
   * not yet uploaded.
   */
  lemma {:induction false} SumAfterRegistering(t: seq<InfoRow>, s: seq<InfoRow>, check: Check,
                                               uploadOk: string -> bool, registerOk: nat -> bool)
    requires DistinctIds(t) && DistinctIds(s)
    requires forall id :: registerOk(id)
    requires forall k, i :: 0 <= k < |s| && 0 <= i < |t| && t[i].id == s[k].id ==> t[i].subido != Some(1)
    requires forall k :: 0 <= k < |s| ==> exists i :: 0 <= i < |t| && t[i].id == s[k].id
    ensures SumUploadedKb(Registered(t, s, check, uploadOk, registerOk)) ==
      SumUploadedKb(t) + Counters(s, check, uploadOk).nuevosKb
  {
    if s != [] {
      var p := s[..|s| - 1];
      var x := s[|s| - 1];
      var o := OutcomeOf(x, check, uploadOk);
      assert forall k :: 0 <= k < |p| ==> p[k] == s[k];
      SumAfterRegistering(t, p, check, uploadOk, registerOk);
      var prev := Registered(t, p, check, uploadOk, registerOk);
      RegisteredFrame(t, p, check, uploadOk, registerOk);
      assert DistinctIds(prev) by {
        forall i, j | 0 <= i < j < |prev| ensures prev[i].id != prev[j].id {
          assert prev[i].id == t[i].id && prev[j].id == t[j].id;
        }
      }
      forall i | 0 <= i < |prev| && prev[i].id == x.id ensures prev[i].subido != Some(1) {
        assert forall k :: 0 <= k < |p| ==> p[k].id != t[i].id by {
          forall k | 0 <= k < |p| ensures p[k].id != t[i].id {
            assert s[k].id != s[|s| - 1].id;
          }
        }
        assert prev[i] == t[i];
      }
      var i :| 0 <= i < |t| && t[i].id == x.id;
      assert prev[i].id == x.id;
      assert HasId(prev, x.id);
      RegisterSum(prev, x.id, if o.uploaded then 1 else 0, o.kb);
    }
  }

  /**
   * `calcular_total_subidos` after a run with every registration committed
   * reports the earlier total plus `total_nuevos_kb` of the run.
   */
  lemma TotalAfterRun(table: seq<InfoRow>, check: Check, uploadOk: string -> bool, registerOk: nat -> bool)
    requires DistinctIds(table)
    requires forall id :: registerOk(id)
    ensures var skus := ObtenerSkus(table);
      CalcularTotalSubidos(Registered(table, skus, check, uploadOk, registerOk), true) ==
        CalcularTotalSubidos(table, true) + Counters(skus, check, uploadOk).nuevosKb
  {
    var skus := ObtenerSkus(table);
    SelectedIdsDistinct(table);
    forall k | 0 <= k < |skus| ensures exists i :: 0 <= i < |table| && table[i] == skus[k] {
      assert skus[k] in table;
    }
    forall k, i | 0 <= k < |skus| && 0 <= i < |table| && table[i].id == skus[k].id
      ensures table[i].subido != Some(1)
    {
      var j :| 0 <= j < |table| && table[j] == skus[k];
      assert i == j;
      assert skus[k] in skus;
    }
    SumAfterRegistering(table, skus, check, uploadOk, registerOk);
  }
}
