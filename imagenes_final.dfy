/**
 * The image job: for every product of the newest feed file it fetches the
 * main image (or the feed's default image), up to nineteen secondary
 * images and, when none of them works, the shop's logo; it records one
 * summary row per SKU and one row per stored image, and afterwards keeps
 * only the newest feed file. Downloads, image processing and the database
 * are oracles; only the bookkeeping around them is modelled.
 */
module ImagenesFinal {
  import opened Common
  import opened FileSystem

  // ---------------------------------------------------------------
  // determinar_tamano_escalado and es_cuadrada
  // ---------------------------------------------------------------

  /** `determinar_tamano_escalado(alto, ancho)`, with its bands as written. */
  function ScaleSize(alto: int, ancho: int): (r: int)
    ensures var m := if alto >= ancho then alto else ancho;
      && (m <= 400 ==> r == 600)
      && (400 < m < 1300 && m % 100 != 0 ==> r == m / 100 * 100 + 300)
      && ((500 <= m <= 1200 && m % 100 == 0) || m >= 1300 ==> r == 1280)
  {
    var maxDim := if alto >= ancho then alto else ancho;
    if maxDim <= 400 then 600
    else if 401 <= maxDim < 500 then 700
    else if 501 <= maxDim < 600 then 800
    else if 601 <= maxDim < 700 then 900
    else if 701 <= maxDim < 800 then 1000
    else if 801 <= maxDim < 900 then 1100
    else if 901 <= maxDim < 1000 then 1200
    else if 1001 <= maxDim < 1100 then 1300
    else if 1101 <= maxDim < 1200 then 1400
    else if 1201 <= maxDim < 1300 then 1500
    else 1280
  }

  /** A 500-pixel image is scaled to 1280, a 501-pixel one to 800: the bands leave holes. */
  lemma ScaleSizeHoleAt500()
    ensures ScaleSize(500, 500) == 1280 && ScaleSize(501, 501) == 800 && ScaleSize(499, 499) == 700
  {
  }

  /** The bands with the upper bound of each included: 401..500, 501..600, ..., 1201..1299. */
  function ScaleSizeIntended(alto: int, ancho: int): (r: int)
  {
    var maxDim := if alto >= ancho then alto else ancho;
    if maxDim <= 400 then 600
    else if maxDim < 1300 then (maxDim - 1) / 100 * 100 + 300
    else 1280
  }

  /** The intended bands are non-decreasing up to 1299 pixels. */
  lemma ScaleSizeIntendedMonotone(a1: int, w1: int, a2: int, w2: int)
    requires var m1 := if a1 >= w1 then a1 else w1; var m2 := if a2 >= w2 then a2 else w2;
      m1 <= m2 < 1300
    ensures ScaleSizeIntended(a1, w1) <= ScaleSizeIntended(a2, w2)
  {
    var m1 := if a1 >= w1 then a1 else w1;
    var m2 := if a2 >= w2 then a2 else w2;
    if 400 < m1 {
      DivMonotone(m1 - 1, m2 - 1);
    }
  }

  /** The intended bands agree with the written ones everywhere but at the multiples of 100 from 500 to 1200. */
  lemma ScaleSizeIntendedAgrees(alto: int, ancho: int)
    ensures var m := if alto >= ancho then alto else ancho;
      !(500 <= m <= 1200 && m % 100 == 0) ==> ScaleSizeIntended(alto, ancho) == ScaleSize(alto, ancho)
  {
    var m := if alto >= ancho then alto else ancho;
    if 400 < m < 1300 && m % 100 != 0 {
      assert (m - 1) / 100 == m / 100;
    }
  }

  lemma DivMonotone(x: int, y: int)
    requires 0 <= x <= y
    ensures x / 100 <= y / 100
  {
  }

  /**
   * `es_cuadrada(img, tol)`: the relative difference of the sides is at
   * most `tol`; an image with no pixels divides by zero.
   */
  function IsSquare(alto: nat, ancho: nat, tol: real): (r: Result<bool>)
    ensures r.Err? <==> alto == 0 && ancho == 0
    ensures r.Ok? ==> (r.value <==>
      (if alto >= ancho then alto - ancho else ancho - alto) as real <= tol * (if alto >= ancho then alto else ancho) as real)
  {
    var m := if alto >= ancho then alto else ancho;
    var diff := if alto >= ancho then alto - ancho else ancho - alto;
    if m == 0 then Err("ZeroDivisionError")
    else
      RatioBound(diff as real, m as real, tol);
      Ok(diff as real / m as real <= tol)
  }

  lemma RatioBound(d: real, m: real, tol: real)
    requires m > 0.0
    ensures d / m <= tol <==> d <= tol * m
  {
    assert d == (d / m) * m;
  }

  /** Equal sides always count as square for a non-negative tolerance. */
  lemma EqualSidesAreSquare(side: nat, tol: real)
    requires side > 0 && tol >= 0.0
    ensures IsSquare(side, side, tol) == Ok(true)
  {
  }

  // ---------------------------------------------------------------
  // eliminar_json_antiguos
  // ---------------------------------------------------------------

  /** `[f for f in os.listdir(ruta_json) if f.endswith('.json')]` */
  function JsonEntries(d: Dir): (r: Dir)
    ensures forall e :: e in r <==> e in d && EndsWith(e.0, ".json")
    ensures IsSubsequence(r, d)
  {
    if d == [] then []
    else
      var rest := JsonEntries(d[..|d| - 1]);
      var last := d[|d| - 1];
      assert forall e :: e in d <==> e in d[..|d| - 1] || e == last;
      assert d[..|d| - 1][..|d| - 1] == d[..|d| - 1];
      if EndsWith(last.0, ".json") then
        assert (rest + [last])[..|rest|] == rest;
        rest + [last]
      else rest
  }

  /** The directory once the entries of `victims` whose removal succeeds are gone. */
  function Pruned(d: Dir, victims: Dir, removeOk: string -> bool): (r: Dir)
    ensures forall k :: Get(r, k) == if (exists v :: v in victims && v.0 == k) && removeOk(k) then None else Get(d, k)
  {
    if victims == [] then d
    else
      var last := victims[|victims| - 1];
      var p := Pruned(d, victims[..|victims| - 1], removeOk);
      assert forall v :: v in victims <==> v in victims[..|victims| - 1] || v == last;
      if removeOk(last.0) then Remove(p, last.0) else p
  }

  /**
   * `eliminar_json_antiguos()`: with more than one `.json` file, every one
   * but the newest is removed; `removeOk` says whether `os.remove`
   * succeeds (a failure is logged and the loop goes on).
   */
  method EliminarJsonAntiguos(d: Dir, removeOk: string -> bool) returns (d': Dir)
    ensures |JsonEntries(d)| <= 1 ==> d' == d
    ensures |JsonEntries(d)| > 1 ==> d' == Pruned(d, ByMtimeDesc(JsonEntries(d))[1..], removeOk)
  {
    var jsonFiles := JsonEntries(d);
    if |jsonFiles| <= 1 {
      return d;
    }
    var sorted := ByMtimeDesc(jsonFiles);
    var victims := sorted[1..];
    d' := d;
    var i := 0;
    while i < |victims|
      invariant 0 <= i <= |victims|
      invariant d' == Pruned(d, victims[..i], removeOk)
    {
      PrefixStep(victims, i);
      if removeOk(victims[i].0) {
        d' := Remove(d', victims[i].0);
      }
      i := i + 1;
    }
    TakeAll(victims);
  }

  /** In a directory no name occurs twice, so no entry occurs twice. */
  lemma DistinctEntriesOnce(d: Dir, e: (string, FileEntry))
    requires DistinctKeys(d)
    ensures multiset(d)[e] <= 1
  {
    if d != [] {
      var rest := d[1..];
      assert DistinctKeys(rest);
      DistinctEntriesOnce(rest, e);
      assert d == [d[0]] + rest;
      if d[0] == e {
        assert forall j :: 0 <= j < |rest| ==> rest[j].0 != d[0].0 by {
          forall j | 0 <= j < |rest| ensures rest[j].0 != d[0].0 {
            assert rest[j] == d[j + 1];
          }
        }
        assert e !in rest;
      }
    }
  }

  lemma {:induction false} SubsequenceDistinct(s: Dir, t: Dir)
    requires IsSubsequence(s, t) && DistinctKeys(t)
    ensures DistinctKeys(s)
  {
    if t != [] {
      var t' := t[..|t| - 1];
      assert DistinctKeys(t');
      if s != [] && s[|s| - 1] == t[|t| - 1] && IsSubsequence(s[..|s| - 1], t') {
        SubsequenceDistinct(s[..|s| - 1], t');
        forall i | 0 <= i < |s| - 1 ensures s[i].0 != s[|s| - 1].0 {
          SubsequenceMember(s[..|s| - 1], t', i);
          var j :| 0 <= j < |t'| && t'[j] == s[i];
        }
      } else {
        SubsequenceDistinct(s, t');
      }
    }
  }

  lemma {:induction false} SubsequenceMember(s: Dir, t: Dir, i: int)
    requires IsSubsequence(s, t) && 0 <= i < |s|
    ensures s[i] in t
  {
    if t != [] {
      var t' := t[..|t| - 1];
      if s != [] && s[|s| - 1] == t[|t| - 1] && IsSubsequence(s[..|s| - 1], t') {
        if i < |s| - 1 {
          SubsequenceMember(s[..|s| - 1], t', i);
        }
      } else {
        SubsequenceMember(s, t', i);
      }
    }
  }

  /** The first entry of the sorted `.json` files is a latest `.json` file of the directory. */
  lemma NewestIsLatest(d: Dir)
    requires |JsonEntries(d)| > 1
    ensures var newest := ByMtimeDesc(JsonEntries(d))[0];
      && newest in d && EndsWith(newest.0, ".json")
      && forall e :: e in d && EndsWith(e.0, ".json") ==> e.1.mtime <= newest.1.mtime
  {
    var js := JsonEntries(d);
    var s := ByMtimeDesc(js);
    assert |s| == |js| by { assert |multiset(s)| == |multiset(js)|; }
    assert s[0] in multiset(js);
    forall e | e in d && EndsWith(e.0, ".json") ensures e.1.mtime <= s[0].1.mtime {
      assert e in multiset(s);
      var j :| 0 <= j < |s| && s[j] == e;
    }
  }

  /** A reordering of entries with distinct names has no other entry named like its first... */
  lemma RestNotNamedLikeFirst(s: Dir, js: Dir)
    requires multiset(s) == multiset(js) && DistinctKeys(js) && |s| > 0
    ensures forall v :: v in s[1..] ==> v.0 != s[0].0
  {
    var newest := s[0];
    assert s == [newest] + s[1..];
    assert multiset(s) == multiset{newest} + multiset(s[1..]);
    forall v | v in s[1..] ensures v.0 != newest.0 {
      assert v in multiset(js);
      assert newest in multiset(js);
      if v.0 == newest.0 {
        var a :| 0 <= a < |js| && js[a] == v;
        var b :| 0 <= b < |js| && js[b] == newest;
        assert v == newest;
        assert multiset(s)[newest] >= 2;
        DistinctEntriesOnce(js, newest);
      }
    }
  }

  /** ...and holds every entry not named like its first after it. */
  lemma OthersInRest(s: Dir, js: Dir)
    requires multiset(s) == multiset(js) && |s| > 0
    ensures forall e :: e in js && e.0 != s[0].0 ==> e in s[1..]
  {
    assert s == [s[0]] + s[1..];
    forall e | e in js && e.0 != s[0].0 ensures e in s[1..] {
      assert e in multiset(s);
    }
  }

  /**
   * The newest `.json` file survives the clean-up untouched, and files
   * of other kinds are never touched.
   */
  lemma NewestJsonSurvives(d: Dir, removeOk: string -> bool)
    requires DistinctKeys(d) && |JsonEntries(d)| > 1
    ensures var newest := ByMtimeDesc(JsonEntries(d))[0];
      var d' := Pruned(d, ByMtimeDesc(JsonEntries(d))[1..], removeOk);
      && newest in d && EndsWith(newest.0, ".json")
      && (forall e :: e in d && EndsWith(e.0, ".json") ==> e.1.mtime <= newest.1.mtime)
      && Get(d', newest.0) == Get(d, newest.0)
      && (forall k :: !EndsWith(k, ".json") ==> Get(d', k) == Get(d, k))
  {
    var s := ByMtimeDesc(JsonEntries(d));
    var victims := s[1..];
    NewestIsLatest(d);
    SubsequenceDistinct(JsonEntries(d), d);
    RestNotNamedLikeFirst(s, JsonEntries(d));
    OthersInRest(s, JsonEntries(d));
    assert forall v :: v in victims ==> EndsWith(v.0, ".json") by {
      forall v | v in victims ensures EndsWith(v.0, ".json") {
        assert v in multiset(s);
      }
    }
  }

  /** When every removal succeeds, the newest is the only `.json` file left. */
  lemma OnlyNewestJsonLeft(d: Dir, removeOk: string -> bool)
    requires |JsonEntries(d)| > 1
    requires forall k :: removeOk(k)
    ensures var s := ByMtimeDesc(JsonEntries(d));
      forall k :: EndsWith(k, ".json") && k != s[0].0 ==> Get(Pruned(d, s[1..], removeOk), k) == None
  {
    var s := ByMtimeDesc(JsonEntries(d));
    OthersInRest(s, JsonEntries(d));
    forall k | EndsWith(k, ".json") && k != s[0].0 ensures Get(Pruned(d, s[1..], removeOk), k) == None {
      if h :| 0 <= h < |d| && d[h].0 == k {
        assert d[h] in JsonEntries(d);
        assert d[h] in s[1..];
      }
    }
  }

  // ---------------------------------------------------------------
  // procesar_imagenes: one product
  // ---------------------------------------------------------------

  /** The number of secondary images tried: `range(1, 20)`. */
  const SecondarySlots: nat := 19

  /**
   * What the oracles answer for one SKU: whether each download and each
   * processing step succeeds, and the pixel areas compared.
   */
  datatype Fetches = Fetches(
    mainFound: bool,           // the `{sku}_full.jpg` download
    hasDefault: bool,          // `producto.get("imagen")` is truthy
    defaultFound: bool,        // the default image downloads
    mainSaved: bool,           // processing, saving and re-reading the main image
    mainArea: nat,
    defaultProcessed: bool,    // `procesar_imagen_bytes` of the default image
    defaultArea: nat,
    secondary: seq<bool>,      // image i (1-based) downloads and processes
    logoSaved: bool)           // the logo fallback is read and processed

  /** The values of the `Cantidad_Imagenes_Procesadas` row. */
  datatype Summary = Summary(count: nat, principal: nat, porDefecto: nat, logotipo: nat)

  /** `"P-" + str(process_id) + sku + str(image_seq)`. */
  function RecordId(processId: nat, sku: string, imageSeq: nat): string
  {
    "P-" + NatToString(processId) + sku + NatToString(imageSeq)
  }

  /** The record IDs for image numbers 1..n. */
  function RecordIds(processId: nat, sku: string, n: nat): (r: seq<string>)
    ensures |r| == n && forall k :: 0 <= k < n ==> r[k] == RecordId(processId, sku, k + 1)
  {
    seq(n, k requires 0 <= k < n => RecordId(processId, sku, k + 1))
  }

  /** One more image number appends its record ID. */
  lemma RecordIdsSnoc(processId: nat, sku: string, n: nat)
    ensures RecordIds(processId, sku, n + 1) == RecordIds(processId, sku, n) + [RecordId(processId, sku, n + 1)]
  {
    var a, b := RecordIds(processId, sku, n + 1), RecordIds(processId, sku, n) + [RecordId(processId, sku, n + 1)];
    assert forall k :: 0 <= k < n + 1 ==> a[k] == b[k];
  }

  /** The record IDs of one SKU are pairwise distinct. */
  lemma RecordIdsDistinct(processId: nat, sku: string, n: nat)
    ensures forall i, j :: 0 <= i < j < n ==> RecordIds(processId, sku, n)[i] != RecordIds(processId, sku, n)[j]
  {
    var ids := RecordIds(processId, sku, n);
    forall i, j | 0 <= i < j < n ensures ids[i] != ids[j] {
      var prefix := "P-" + NatToString(processId) + sku;
      if ids[i] == ids[j] {
        assert ids[i] == prefix + NatToString(i + 1);
        assert ids[j] == prefix + NatToString(j + 1);
        assert NatToString(i + 1) == ids[i][|prefix|..];
        assert NatToString(j + 1) == ids[j][|prefix|..];
        NatToStringInjective(i + 1, j + 1);
      }
    }
  }

  /** The number of secondary images that were stored. */
  function CountTrue(s: seq<bool>): (n: nat)
    ensures n <= |s|
  {
    if s == [] then 0 else CountTrue(s[..|s| - 1]) + (if s[|s| - 1] then 1 else 0)
  }

  /** The main image is stored: something downloaded, and processing did not raise. */
  predicate MainStored(f: Fetches)
  {
    (f.mainFound || (f.hasDefault && f.defaultFound)) && f.mainSaved
      && !(f.hasDefault && f.defaultFound && !f.defaultProcessed)
  }

  /** The default image took the main image's place. */
  predicate DefaultUsed(f: Fetches)
  {
    || (!f.mainFound && f.hasDefault && f.defaultFound)
    || (MainStored(f) && f.hasDefault && f.defaultFound && f.defaultProcessed && f.defaultArea > f.mainArea)
  }

  /**
   * The final row of a SKU: the number of stored images with the main and
   * default flags, or, when none was stored, the logo with count 1.
   */
  predicate SummaryOf(f: Fetches, row: Summary)
  {
    var stored := (if MainStored(f) then 1 else 0) + CountTrue(f.secondary);
    && (stored > 0 ==> row == Summary(stored, if MainStored(f) then 1 else 0, if DefaultUsed(f) then 1 else 0, 0))
    && (stored == 0 && f.logoSaved ==> row == Summary(1, 0, 0, 1))
    && (stored == 0 && !f.logoSaved ==> row == Summary(0, 0, if DefaultUsed(f) then 1 else 0, 0))
  }

  /**
   * The body of the loop over products, for a SKU not yet registered:
   * the main image, the secondary images in order, then the logo when
   * no image was stored. `ids` are the IDs of the image rows written.
   */
  method ProcessProduct(processId: nat, sku: string, f: Fetches) returns (row: Summary, ids: seq<string>)
    requires |f.secondary| == SecondarySlots
    ensures SummaryOf(f, row)
    ensures ids == RecordIds(processId, sku, row.count)
  {
    var imageSeq := 1;
    var productImageCount := 0;
    var mainProcessed := 0;
    var defaultUsed := 0;
    ids := [];
    var imagenPrincipal := f.mainFound;
    if !imagenPrincipal && f.hasDefault {
      imagenPrincipal := f.defaultFound;
      if imagenPrincipal {
        defaultUsed := 1;
      }
    }
    if imagenPrincipal {
      // an exception anywhere in the block skips the rest of it
      if f.mainSaved && !(f.hasDefault && f.defaultFound && !f.defaultProcessed) {
        if f.hasDefault && f.defaultFound && f.defaultArea > f.mainArea {
          defaultUsed := 1;
        }
        mainProcessed := 1;
        productImageCount := productImageCount + 1;
        RecordIdsSnoc(processId, sku, productImageCount - 1);
        ids := ids + [RecordId(processId, sku, imageSeq)];
        imageSeq := imageSeq + 1;
      }
    }
    assert productImageCount == if MainStored(f) then 1 else 0;
    assert defaultUsed == if DefaultUsed(f) then 1 else 0;
    productImageCount, ids := SecondaryImages(processId, sku, f.secondary, productImageCount, ids);
    imageSeq := productImageCount + 1;
    row := Summary(productImageCount, mainProcessed, defaultUsed, 0);
    if productImageCount == 0 && f.logoSaved {
      productImageCount := 1;
      RecordIdsSnoc(processId, sku, 0);
      ids := ids + [RecordId(processId, sku, imageSeq)];
      imageSeq := imageSeq + 1;
      row := Summary(productImageCount, 0, 0, 1);
    }
  }

  /** The loop over the secondary images 1..19: each stored one takes the next image number. */
  method SecondaryImages(processId: nat, sku: string, secondary: seq<bool>, count0: nat, ids0: seq<string>)
    returns (count: nat, ids: seq<string>)
    requires ids0 == RecordIds(processId, sku, count0)
    ensures count == count0 + CountTrue(secondary)
    ensures ids == RecordIds(processId, sku, count)
  {
    count, ids := count0, ids0;
    var i := 0;
    while i < |secondary|
      invariant 0 <= i <= |secondary|
      invariant count == count0 + CountTrue(secondary[..i])
      invariant ids == RecordIds(processId, sku, count)
    {
      PrefixStep(secondary, i);
      if secondary[i] {
        RecordIdsSnoc(processId, sku, count);
        ids := ids + [RecordId(processId, sku, count + 1)];
        count := count + 1;
      }
      i := i + 1;
    }
    assert secondary[..i] == secondary;
  }

  /**
   * The default image replaces a stored main image only when its
   * processed area is strictly larger.
   */
  lemma DefaultReplacesOnlyWhenLarger(f: Fetches)
    requires f.mainFound && MainStored(f)
    ensures DefaultUsed(f) <==> f.hasDefault && f.defaultFound && f.defaultArea > f.mainArea
  {
  }

  // ---------------------------------------------------------------
  // procesar_imagenes: the loop over products
  // ---------------------------------------------------------------

  /** `producto.get('clave')`: None when the product is not a dict and `.get` raises; a missing clave is null. */
  function RawClave(p: Json): (r: Option<Json>)
    ensures r.Some? <==> p.JObj?
  {
    if p.JObj? then Some(GetOr(p.fields, "clave", JNull)) else None
  }

  /**
   * How the `SKU VARCHAR(50)` column answers `WHERE SKU = %s`: two strings
   * are equal when their collation keys are (`collate`; the default
   * collation ignores letter case and trailing spaces), and `numeric` is
   * the answer for a number or a boolean, which MySQL compares with each
   * stored SKU read as a number.
   */
  datatype Lookup = Lookup(collate: string -> string, numeric: (set<string>, Json) -> bool)

  /** `SELECT COUNT(*) ... WHERE SKU = %s` gives a positive count; `SKU = NULL` holds for no row. */
  predicate Registered(table: set<string>, clave: Json, db: Lookup)
  {
    match clave
    case JStr(s) => exists t :: t in table && db.collate(t) == db.collate(s)
    case JNull => false
    case JBool(_) => db.numeric(table, clave)
    case JInt(_) => db.numeric(table, clave)
    case JFloat(_) => db.numeric(table, clave)
    case JList(_) => false
    case JObj(_) => false
  }

  /** A clave the driver cannot pass as a query parameter: `cursor.execute` raises. */
  predicate Unbindable(clave: Json)
  {
    clave.JList? || clave.JObj?
  }

  /** Where the loop stands: the SKUs given a row, in order, the SKUs in the table, and whether it goes on. */
  datatype Scan = Scan(skus: seq<string>, table: set<string>, ok: bool)

  /**
   * One product: a product that is not a dict, or whose clave cannot be
   * bound, raises; a registered clave is skipped; an unregistered string
   * gets a row and enters the table; an unregistered clave of another type
   * raises at `os.path.join`. After a raise nothing more happens.
   */
  function ScanStep(prev: Scan, p: Json, db: Lookup): Scan
  {
    var c := RawClave(p);
    if !prev.ok || c.None? || Unbindable(c.value) then prev.(ok := false)
    else if Registered(prev.table, c.value, db) then prev
    else if c.value.JStr? then Scan(prev.skus + [c.value.s], prev.table + {c.value.s}, true)
    else prev.(ok := false)
  }

  /** The loop over the products, in order. */
  function ScanProducts(products: seq<Json>, registered: set<string>, db: Lookup): Scan
  {
    if products == [] then Scan([], registered, true)
    else ScanStep(ScanProducts(products[..|products| - 1], registered, db), products[|products| - 1], db)
  }

  lemma ScanNext(products: seq<Json>, n: nat, registered: set<string>, db: Lookup)
    requires n < |products|
    ensures ScanProducts(products[..n + 1], registered, db) == ScanStep(ScanProducts(products[..n], registered, db), products[n], db)
  {
    assert products[..n + 1][..n] == products[..n];
  }

  /** A product whose clave the table already matches leaves the loop's state as it was. */
  lemma ScanSkips(products: seq<Json>, n: nat, registered: set<string>, db: Lookup, prev: Scan)
    requires n < |products| && ScanProducts(products[..n], registered, db) == prev && prev.ok
    requires RawClave(products[n]).Some? && !Unbindable(RawClave(products[n]).value)
    requires Registered(prev.table, RawClave(products[n]).value, db)
    ensures ScanProducts(products[..n + 1], registered, db) == prev
  {
    ScanNext(products, n, registered, db);
  }

  /** A product with a new string clave adds it to the SKUs and to the table. */
  lemma ScanAdds(products: seq<Json>, n: nat, registered: set<string>, db: Lookup, prev: Scan, sku: string)
    requires n < |products| && ScanProducts(products[..n], registered, db) == prev && prev.ok
    requires RawClave(products[n]) == Some(JStr(sku)) && !Registered(prev.table, JStr(sku), db)
    ensures sku !in prev.table
    ensures ScanProducts(products[..n + 1], registered, db) == Scan(prev.skus + [sku], prev.table + {sku}, true)
  {
    ScanNext(products, n, registered, db);
    assert !(sku in prev.table && db.collate(sku) == db.collate(sku));
  }

  /** A product that is not a dict, or whose clave cannot be bound or is new and not a string, ends the loop. */
  lemma ScanRaises(products: seq<Json>, n: nat, registered: set<string>, db: Lookup, prev: Scan)
    requires n < |products| && ScanProducts(products[..n], registered, db) == prev
    requires || RawClave(products[n]).None? || Unbindable(RawClave(products[n]).value)
             || (!Registered(prev.table, RawClave(products[n]).value, db) && !RawClave(products[n]).value.JStr?)
    ensures ScanProducts(products, registered, db) == prev.(ok := false)
  {
    ScanNext(products, n, registered, db);
    ScanStops(products, n, registered, db);
  }

  function SeqSet(xs: seq<string>): set<string>
  {
    set x | x in xs
  }

  /**
   * The table is the registered SKUs plus those given a row; a SKU given a
   * row was not in the table before, so none is given two rows.
   */
  lemma {:induction false} ScanFresh(products: seq<Json>, registered: set<string>, db: Lookup)
    ensures var r := ScanProducts(products, registered, db);
      && r.table == registered + SeqSet(r.skus)
      && (forall i :: 0 <= i < |r.skus| ==> r.skus[i] !in registered)
      && (forall i, j :: 0 <= i < j < |r.skus| ==> r.skus[i] != r.skus[j])
  {
    if products != [] {
      var init := products[..|products| - 1];
      ScanFresh(init, registered, db);
      var prev := ScanProducts(init, registered, db);
      var c := RawClave(products[|products| - 1]);
      if prev.ok && c.Some? && !Unbindable(c.value) && !Registered(prev.table, c.value, db) && c.value.JStr? {
        var s := c.value.s;
        assert !(s in prev.table && db.collate(s) == db.collate(s));
        assert SeqSet(prev.skus + [s]) == SeqSet(prev.skus) + {s};
        forall i | 0 <= i < |prev.skus| ensures prev.skus[i] != s {
          assert prev.skus[i] in SeqSet(prev.skus);
        }
      }
    }
  }

  /**
   * When the loop gets through every product, each one was a dict and each
   * string clave is registered in the final table, whether it was skipped
   * or given a row.
   */
  lemma {:induction false} ScanCovers(products: seq<Json>, registered: set<string>, db: Lookup)
    requires ScanProducts(products, registered, db).ok
    ensures var r := ScanProducts(products, registered, db);
      forall k :: 0 <= k < |products| ==>
        RawClave(products[k]).Some? && (RawClave(products[k]).value.JStr? ==> Registered(r.table, RawClave(products[k]).value, db))
  {
    if products != [] {
      var init := products[..|products| - 1];
      var prev := ScanProducts(init, registered, db);
      var r := ScanProducts(products, registered, db);
      ScanCovers(init, registered, db);
      assert prev.table <= r.table;
      forall k | 0 <= k < |products|
        ensures RawClave(products[k]).Some? && (RawClave(products[k]).value.JStr? ==> Registered(r.table, RawClave(products[k]).value, db))
      {
        if k < |products| - 1 {
          assert products[k] == init[k];
          var c := RawClave(products[k]).value;
          if c.JStr? {
            var t :| t in prev.table && db.collate(t) == db.collate(c.s);
            assert t in r.table;
          }
        } else {
          var c := RawClave(products[k]).value;
          if c.JStr? && !Registered(prev.table, c, db) {
            assert c.s in r.table;
          }
        }
      }
    }
  }

  /** A SKU the table holds in other letter case is skipped when the collation ignores case. */
  lemma CaseVariantSkipped(registered: set<string>, db: Lookup)
    requires "ABC" in registered && db.collate("abc") == db.collate("ABC")
    ensures ScanProducts([JObj([("clave", JStr("abc"))])], registered, db) == Scan([], registered, true)
  {
    var ps := [JObj([("clave", JStr("abc"))])];
    assert ps[..0] == [];
    assert Registered(registered, JStr("abc"), db);
  }

  /** A null clave is never registered, so it reaches `os.path.join` and ends the loop. */
  lemma NullClaveEndsLoop(registered: set<string>, db: Lookup)
    ensures !ScanProducts([JObj([("clave", JNull)])], registered, db).ok
  {
    var ps := [JObj([("clave", JNull)])];
    assert ps[..0] == [];
  }

  /** One `Cantidad_Imagenes_Procesadas` row: SKU, process id and final values. */
  datatype Row = Row(sku: string, processId: nat, summary: Summary)

  function Skus(rows: seq<Row>): (r: set<string>)
    ensures forall i :: 0 <= i < |rows| ==> rows[i].sku in r
  {
    if rows == [] then {} else Skus(rows[..|rows| - 1]) + {rows[|rows| - 1].sku}
  }

  function TotalImages(rows: seq<Row>): nat
  {
    if rows == [] then 0 else TotalImages(rows[..|rows| - 1]) + rows[|rows| - 1].summary.count
  }

  /** The rows written so far: new SKUs only, each once, with consecutive ids and their final values. */
  predicate RowsOk(rows: seq<Row>, registered: set<string>, firstId: nat, fetch: string -> Fetches)
  {
    && (forall i :: 0 <= i < |rows| ==> rows[i].sku !in registered)
    && (forall i, j :: 0 <= i < j < |rows| ==> rows[i].sku != rows[j].sku)
    && (forall i :: 0 <= i < |rows| ==> rows[i].processId == firstId + i && SummaryOf(fetch(rows[i].sku), rows[i].summary))
  }

  lemma RowsOkAppend(rows: seq<Row>, registered: set<string>, firstId: nat, fetch: string -> Fetches, row: Row)
    requires RowsOk(rows, registered, firstId, fetch)
    requires row.sku !in registered + Skus(rows)
    requires row.processId == firstId + |rows| && SummaryOf(fetch(row.sku), row.summary)
    ensures RowsOk(rows + [row], registered, firstId, fetch)
    ensures Skus(rows + [row]) == Skus(rows) + {row.sku}
    ensures TotalImages(rows + [row]) == TotalImages(rows) + row.summary.count
  {
    RowsOkSnoc(rows, registered, firstId, fetch, row);
    SkusSnoc(rows, row);
    TotalImagesSnoc(rows, row);
  }

  lemma RowsOkSnoc(rows: seq<Row>, registered: set<string>, firstId: nat, fetch: string -> Fetches, row: Row)
    requires RowsOk(rows, registered, firstId, fetch)
    requires row.sku !in registered + Skus(rows)
    requires row.processId == firstId + |rows| && SummaryOf(fetch(row.sku), row.summary)
    ensures RowsOk(rows + [row], registered, firstId, fetch)
  {
    var rows' := rows + [row];
    forall i | 0 <= i < |rows| ensures rows[i].sku != row.sku {
      assert rows[i].sku in Skus(rows);
    }
    forall i | 0 <= i < |rows'| ensures rows'[i] == if i < |rows| then rows[i] else row {
    }
  }

  lemma SkusSnoc(rows: seq<Row>, row: Row)
    ensures Skus(rows + [row]) == Skus(rows) + {row.sku}
  {
    SnocTake(rows, row);
  }

  lemma TotalImagesSnoc(rows: seq<Row>, row: Row)
    ensures TotalImages(rows + [row]) == TotalImages(rows) + row.summary.count
  {
    SnocTake(rows, row);
  }

  /** The SKUs of the rows, in order. */
  function RowSkus(rows: seq<Row>): (r: seq<string>)
    ensures |r| == |rows| && forall i :: 0 <= i < |rows| ==> r[i] == rows[i].sku
  {
    if rows == [] then [] else RowSkus(rows[..|rows| - 1]) + [rows[|rows| - 1].sku]
  }

  /**
   * The loop of `procesar_imagenes` over the products of the newest feed
   * file. A clave the table already holds (as `db` compares) is skipped
   * without a row; each other string gets the next auto-increment id and
   * its row. A product that is not a dict, a clave that cannot be bound,
   * or an unregistered clave that is not a string raises and ends the run
   * (`ok` false); the rows written before stay.
   */
  method ProcesarImagenes(products: seq<Json>, registered: set<string>, db: Lookup, firstId: nat, fetch: string -> Fetches)
    returns (rows: seq<Row>, total: nat, ok: bool)
    requires forall sku :: |fetch(sku).secondary| == SecondarySlots
    ensures RowSkus(rows) == ScanProducts(products, registered, db).skus
    ensures ok == ScanProducts(products, registered, db).ok
    ensures forall i :: 0 <= i < |rows| ==> rows[i].sku !in registered
    ensures forall i, j :: 0 <= i < j < |rows| ==> rows[i].sku != rows[j].sku
    ensures forall i :: 0 <= i < |rows| ==> rows[i].processId == firstId + i && SummaryOf(fetch(rows[i].sku), rows[i].summary)
    ensures total == TotalImages(rows)
  {
    rows := [];
    total := 0;
    var seen := registered;
    var n := 0;
    while n < |products|
      invariant 0 <= n <= |products|
      invariant seen == registered + Skus(rows)
      invariant RowsOk(rows, registered, firstId, fetch)
      invariant total == TotalImages(rows)
      invariant ScanProducts(products[..n], registered, db) == Scan(RowSkus(rows), seen, true)
    {
      ghost var prev := Scan(RowSkus(rows), seen, true);
      var clave := RawClave(products[n]);
      if clave.None? || Unbindable(clave.value) {
        ScanRaises(products, n, registered, db, prev);
        return rows, total, false;
      }
      if !Registered(seen, clave.value, db) {
        if !clave.value.JStr? {
          ScanRaises(products, n, registered, db, prev);
          return rows, total, false;
        }
        var sku := clave.value.s;
        ScanAdds(products, n, registered, db, prev, sku);
        rows, total := NewSkuRow(rows, total, sku, registered, firstId, fetch);
        seen := seen + {sku};
      } else {
        ScanSkips(products, n, registered, db, prev);
      }
      n := n + 1;
    }
    assert products[..n] == products;
    ok := true;
  }

  /** Once a product raises, the loop ends with the rows it had. */
  lemma {:induction false} ScanStops(products: seq<Json>, n: nat, registered: set<string>, db: Lookup)
    requires n < |products| && !ScanProducts(products[..n + 1], registered, db).ok
    ensures ScanProducts(products, registered, db) == ScanProducts(products[..n + 1], registered, db)
    decreases |products|
  {
    if n + 1 == |products| {
      assert products[..n + 1] == products;
    } else {
      assert products[..|products| - 1][..n + 1] == products[..n + 1];
      ScanStops(products[..|products| - 1], n, registered, db);
    }
  }

  /** The body of the loop for a SKU not in the table: its images are processed and its row is appended. */
  method NewSkuRow(rows: seq<Row>, total: nat, sku: string, registered: set<string>, firstId: nat, fetch: string -> Fetches)
    returns (rows': seq<Row>, total': nat)
    requires forall sku :: |fetch(sku).secondary| == SecondarySlots
    requires RowsOk(rows, registered, firstId, fetch) && total == TotalImages(rows)
    requires sku !in registered + Skus(rows)
    ensures RowsOk(rows', registered, firstId, fetch) && total' == TotalImages(rows')
    ensures Skus(rows') == Skus(rows) + {sku} && |rows'| == |rows| + 1
    ensures RowSkus(rows') == RowSkus(rows) + [sku]
  {
    var nextId := firstId + |rows|;
    var summary, ids := ProcessProduct(nextId, sku, fetch(sku));
    RowsOkAppend(rows, registered, firstId, fetch, Row(sku, nextId, summary));
    rows' := rows + [Row(sku, nextId, summary)];
    assert rows'[..|rows|] == rows;
    total' := total + summary.count;
  }
}
