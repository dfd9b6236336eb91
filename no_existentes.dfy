/**
 * The script that creates in Shopify the products an update run reported as
 * 'SKU no encontrado': the failure reports of two directories are
 * collected, their SKUs made unique and matched against the newest base
 * snapshot, and every match is prepared for creation with its tags, its
 * exchange rate and its stock. The Shopify calls are oracles.
 */
module NoExistentes {
  import opened Common
  import opened Tags
  import opened FileSystem

  // ---------------------------------------------------------------
  // procesar_directorio
  // ---------------------------------------------------------------

  /** A CSV cell as pandas reads it: never a list or a dict. */
  type Cell = v: Json | Hashable(v) witness JNull

  /** One row of a failure report, cut down to the columns `SKU`, `Nombre` and `Razón del Fallo`. */
  datatype FailureRow = FailureRow(sku: Cell, nombre: Cell, razon: Cell)

  /**
   * A file met by `os.walk`: its base name, and its rows when it reads as a
   * CSV holding the three columns. None when reading raises or a column is
   * missing: either only skips the file.
   */
  datatype CsvFile = CsvFile(name: string, rows: Option<seq<FailureRow>>)

  /** `'fallo' in archivo.lower() and archivo.lower().endswith('.csv')`. */
  predicate IsFailureReport(name: string)
  {
    ContainsSub(Lower(name), "fallo") && EndsWith(Lower(name), ".csv")
  }

  /** `df['Razón del Fallo'].str.lower() == 'sku no encontrado'`: a cell that is not a string never matches. */
  predicate SkuNotFoundRow(row: FailureRow)
  {
    row.razon.JStr? && Lower(row.razon.s) == "sku no encontrado"
  }

  /** The rows of one report that are kept, in file order. */
  function KeptRows(rows: seq<FailureRow>): (r: seq<FailureRow>)
    ensures |r| <= |rows|
    ensures forall x :: x in r <==> x in rows && SkuNotFoundRow(x)
  {
    if rows == [] then []
    else
      var init, last := rows[..|rows| - 1], rows[|rows| - 1];
      assert forall x :: x in rows <==> x == last || x in init;
      KeptRows(init) + (if SkuNotFoundRow(last) then [last] else [])
  }

  /** Whether a walked file contributes rows: a failure report that reads with the three columns. */
  predicate Contributes(f: CsvFile)
  {
    IsFailureReport(f.name) && f.rows.Some?
  }

  /** The rows a directory contributes: files in walk order, rows in file order. */
  function FailureRows(files: seq<CsvFile>): seq<FailureRow>
  {
    if files == [] then []
    else
      var f := files[|files| - 1];
      FailureRows(files[..|files| - 1]) + (if Contributes(f) then KeptRows(f.rows.value) else [])
  }

  /**
   * `procesar_directorio(directorio, skus_no_encontrados)`: `files` are the
   * files of the directory tree in walk order; the kept rows are appended
   * to the list passed in.
   */
  method ProcessDirectory(skus: seq<FailureRow>, files: seq<CsvFile>) returns (extended: seq<FailureRow>)
    ensures extended == skus + FailureRows(files)
  {
    extended := skus;
    var i := 0;
    while i < |files|
      invariant 0 <= i <= |files|
      invariant extended == skus + FailureRows(files[..i])
    {
      assert files[..i + 1][..i] == files[..i];
      if IsFailureReport(files[i].name) && files[i].rows.Some? {
        extended := extended + KeptRows(files[i].rows.value);
      } else {
        assert FailureRows(files[..i + 1]) == FailureRows(files[..i]) + [];
      }
      i := i + 1;
    }
    assert files[..i] == files;
  }

  /** A row is collected exactly when it says 'SKU no encontrado' and some contributing report holds it. */
  lemma {:induction false} FailureRowsMeaning(files: seq<CsvFile>, row: FailureRow)
    ensures row in FailureRows(files) <==>
      SkuNotFoundRow(row) && exists f :: f in files && Contributes(f) && row in f.rows.value
  {
    if files != [] {
      var init, f := files[..|files| - 1], files[|files| - 1];
      FailureRowsMeaning(init, row);
      assert forall g :: g in files <==> g == f || g in init;
    }
  }

  // ---------------------------------------------------------------
  // eliminar_duplicados
  // ---------------------------------------------------------------

  /** `{'sku': sku, 'nombre': nombre, 'razon_fallo': razon}`. */
  datatype UniqueSku = UniqueSku(sku: Cell, nombre: Cell, razonFallo: Cell)

  function UniqueOf(row: FailureRow): UniqueSku
  {
    UniqueSku(row.sku, row.nombre, row.razon)
  }

  /** `skus_unicos_dict` after the loop: a new truthy SKU is inserted, a repeated one ignored. */
  function UniqueDict(rows: seq<FailureRow>): (d: seq<(Cell, UniqueSku)>)
    ensures |d| <= |rows|
  {
    if rows == [] then []
    else
      var d := UniqueDict(rows[..|rows| - 1]);
      var row := rows[|rows| - 1];
      if Truthy(row.sku) && !HasKey(d, row.sku) then d + [(row.sku, UniqueOf(row))] else d
  }

  /** No earlier row has the SKU of row `i`. */
  ghost predicate FirstOccurrence(rows: seq<FailureRow>, i: int)
    requires 0 <= i < |rows|
  {
    forall j :: 0 <= j < i ==> rows[j].sku != rows[i].sku
  }

  /**
   * The reference reading of "keep the first occurrence": row `i` is kept
   * when its SKU is truthy and no earlier row has that SKU, in row order.
   */
  ghost function FirstOccurrences(rows: seq<FailureRow>): seq<UniqueSku>
  {
    if rows == [] then []
    else
      var i := |rows| - 1;
      FirstOccurrences(rows[..i]) + (if Truthy(rows[i].sku) && FirstOccurrence(rows, i) then [UniqueOf(rows[i])] else [])
  }

  /** The dict holds exactly the truthy SKUs of the rows, each under its own key. */
  lemma {:induction false} UniqueDictKeys(rows: seq<FailureRow>, k: Cell)
    ensures HasKey(UniqueDict(rows), k) <==> Truthy(k) && exists i :: 0 <= i < |rows| && rows[i].sku == k
  {
    if rows != [] {
      var init, row := rows[..|rows| - 1], rows[|rows| - 1];
      UniqueDictKeys(init, k);
      var d := UniqueDict(init);
      if Truthy(row.sku) && !HasKey(d, row.sku) {
        if HasKey(d + [(row.sku, UniqueOf(row))], k) && k != row.sku {
          var j :| 0 <= j < |d| + 1 && (d + [(row.sku, UniqueOf(row))])[j].0 == k;
          assert d[j].0 == k;
        }
        if HasKey(d, k) {
          var j :| 0 <= j < |d| && d[j].0 == k;
          assert (d + [(row.sku, UniqueOf(row))])[j].0 == k;
        }
        assert (d + [(row.sku, UniqueOf(row))])[|d|].0 == row.sku;
      }
      if exists i :: 0 <= i < |rows| && rows[i].sku == k {
        var i :| 0 <= i < |rows| && rows[i].sku == k;
        if i < |rows| - 1 { assert init[i].sku == k; }
      }
      if exists i :: 0 <= i < |init| && init[i].sku == k {
        var i :| 0 <= i < |init| && init[i].sku == k;
        assert rows[i].sku == k;
      }
    }
  }

  /**
   * The de-duplicated list keeps the first row of each truthy SKU, drops
   * rows whose SKU is falsy, and keeps the order of first occurrence.
   */
  lemma {:induction false} UniqueIsFirstOccurrences(rows: seq<FailureRow>)
    ensures Values(UniqueDict(rows)) == FirstOccurrences(rows)
  {
    if rows != [] {
      var i := |rows| - 1;
      var init, row := rows[..i], rows[i];
      UniqueIsFirstOccurrences(init);
      UniqueDictKeys(init, row.sku);
      if Truthy(row.sku) {
        if FirstOccurrence(rows, i) {
          assert !exists j :: 0 <= j < |init| && init[j].sku == row.sku;
          assert Values(UniqueDict(init) + [(row.sku, UniqueOf(row))]) == Values(UniqueDict(init)) + [UniqueOf(row)];
        } else {
          var j :| 0 <= j < i && rows[j].sku == rows[i].sku;
          assert init[j].sku == row.sku;
        }
      }
    }
  }

  /** Every unique record comes from one of the rows. */
  lemma {:induction false} FirstOccurrencesFromRows(rows: seq<FailureRow>, k: UniqueSku)
    requires k in FirstOccurrences(rows)
    ensures exists i :: 0 <= i < |rows| && UniqueOf(rows[i]) == k && Truthy(rows[i].sku)
  {
    var n := |rows| - 1;
    if k in FirstOccurrences(rows[..n]) {
      FirstOccurrencesFromRows(rows[..n], k);
      var i :| 0 <= i < n && UniqueOf(rows[..n][i]) == k && Truthy(rows[..n][i].sku);
      assert rows[i] == rows[..n][i];
    }
  }

  /**
   * `eliminar_duplicados(skus_no_encontrados)`: the list of unique SKU
   * records and the duplicate count it reports, `len(in) - len(out)`.
   */
  method RemoveDuplicates(rows: seq<FailureRow>) returns (unicos: seq<UniqueSku>, duplicados: int)
    ensures unicos == FirstOccurrences(rows)
    ensures duplicados == |rows| - |unicos| && duplicados >= 0
  {
    var dict: seq<(Cell, UniqueSku)> := [];
    var i := 0;
    while i < |rows|
      invariant 0 <= i <= |rows|
      invariant dict == UniqueDict(rows[..i])
    {
      assert rows[..i + 1][..i] == rows[..i];
      var sku := rows[i].sku;
      if Truthy(sku) && !HasKey(dict, sku) {
        dict := dict + [(sku, UniqueOf(rows[i]))];
      }
      i := i + 1;
    }
    assert rows[..i] == rows;
    unicos := Values(dict);
    UniqueIsFirstOccurrences(rows);
    duplicados := |rows| - |unicos|;
  }

  // ---------------------------------------------------------------
  // encontrar_archivo_base and comparar_json
  // ---------------------------------------------------------------

  /**
   * What `json.load` of the base file gives: the first of the latest `.json`
   * entries (a stable sort by mtime, newest first, then `[0]`). None when
   * the folder cannot be listed, has no `.json` entry, or the file does not
   * load.
   */
  function BaseData(dir: Option<Dir>): (r: Option<Json>)
    ensures NewestFile(dir, ".json").None? ==> r.None?
  {
    var name := NewestFile(dir, ".json");
    if name.None? then None
    else
      match Get(dir.value, name.value)
      case Some(e) => e.content
      case None => None
  }

  /** `entry` is a dict whose `clave` is `c`. */
  predicate HasClave(entry: Json, c: Json)
  {
    entry.JObj? && GetOr(entry.fields, "clave", JNull) == c
  }

  /**
   * `base_productos` after `for entry in base_data: clave = entry.get('clave');
   * if clave: base_productos[clave] = entry`; an error when an entry is not
   * a dict (`get` raises) or its truthy clave cannot be hashed.
   */
  function BaseProducts(entries: seq<Json>): Result<seq<(Json, Json)>>
  {
    if entries == [] then Ok([])
    else
      var init, e := entries[..|entries| - 1], entries[|entries| - 1];
      var m := BaseProducts(init);
      if m.Err? then m
      else if !e.JObj? then Err("AttributeError")
      else
        var c := GetOr(e.fields, "clave", JNull);
        if !Truthy(c) then m
        else if !Hashable(c) then Err("TypeError: unhashable type")
        else Ok(Put(m.value, c, e))
  }
  /** An entry the map-building loop accepts: a dict whose truthy clave can be hashed. */
  predicate BaseEntryOk(e: Json)
  {
    e.JObj? && (Truthy(GetOr(e.fields, "clave", JNull)) ==> Hashable(GetOr(e.fields, "clave", JNull)))
  }

  /** Building the map raises exactly when some entry is not accepted. */
  lemma {:induction false} BaseProductsOk(entries: seq<Json>)
    ensures BaseProducts(entries).Ok? <==> forall e :: e in entries ==> BaseEntryOk(e)
  {
    if entries != [] {
      var init, e := entries[..|entries| - 1], entries[|entries| - 1];
      BaseProductsOk(init);
      assert e in entries;
      assert forall x :: x in init ==> x in entries;
      if BaseProducts(init).Ok? && BaseEntryOk(e) {
        assert forall x :: x in entries ==> x == e || x in init;
      }
    }
  }

  /** Every stored pair is an entry of the file under its own truthy clave. */
  lemma {:induction false} BaseProductsStored(entries: seq<Json>)
    requires BaseProducts(entries).Ok?
    ensures forall p :: p in BaseProducts(entries).value ==> p.1 in entries && HasClave(p.1, p.0) && Truthy(p.0)
  {
    if entries != [] {
      var init := entries[..|entries| - 1];
      BaseProductsStored(init);
      assert forall x :: x in init ==> x in entries;
    }
  }


  /**
   * Last write wins: under a truthy clave the map holds the last entry
   * carrying it, and a clave no entry carries is absent.
   */
  lemma {:induction false} BaseProductsLastWins(entries: seq<Json>, c: Json, i: int)
    requires BaseProducts(entries).Ok?
    requires 0 <= i < |entries| && Truthy(c) && HasClave(entries[i], c)
    requires forall j :: i < j < |entries| ==> !HasClave(entries[j], c)
    ensures Get(BaseProducts(entries).value, c) == Some(entries[i])
  {
    var n := |entries|;
    var init := entries[..n - 1];
    assert forall x :: x in init ==> x in entries;
    if i < n - 1 {
      assert init[i] == entries[i];
      BaseProductsLastWins(init, c, i);
    }
  }

  /** Under a clave that no entry carries, nothing is stored. */
  lemma {:induction false} BaseProductsAbsent(entries: seq<Json>, c: Json)
    requires BaseProducts(entries).Ok?
    requires forall j :: 0 <= j < |entries| ==> !HasClave(entries[j], c)
    ensures Get(BaseProducts(entries).value, c).None?
  {
    if entries != [] {
      var init := entries[..|entries| - 1];
      assert forall x :: x in init ==> x in entries;
      BaseProductsAbsent(init, c);
    }
  }

  /** `coincidencias`: the stored record of every truthy SKU found in the map, in list order. */
  function Matches(unicos: seq<UniqueSku>, base: seq<(Json, Json)>): (r: seq<Json>)
    ensures |r| <= |unicos|
    ensures forall x :: x in r ==> exists k :: k in unicos && Truthy(k.sku) && Get(base, k.sku) == Some(x)
  {
    if unicos == [] then []
    else
      var init, u := unicos[..|unicos| - 1], unicos[|unicos| - 1];
      assert forall x :: x in init ==> x in unicos;
      var found := Get(base, u.sku);
      Matches(init, base) + (if Truthy(u.sku) && found.Some? then [found.value] else [])
  }

  /**
   * `comparar_json(skus_no_existentes, ruta_base_dir, ...)`: the matches, or
   * [] when there is no base file, it does not load, or building the map
   * raises.
   */
  function Coincidencias(unicos: seq<UniqueSku>, dir: Option<Dir>): seq<Json>
  {
    match BaseData(dir)
    case None => []
    case Some(data) =>
      match Iterated(data)
      case Err(_) => []
      case Ok(entries) =>
        match BaseProducts(entries)
        case Err(_) => []
        case Ok(base) => Matches(unicos, base)
  }

  /**
   * Every match is a base entry, a dict whose clave is the SKU of one of
   * the unique records, and the last entry of the base file with that
   * clave; a missing or unloadable base file gives no match.
   */
  lemma CoincidenciasMeaning(unicos: seq<UniqueSku>, dir: Option<Dir>)
    ensures BaseData(dir).None? ==> Coincidencias(unicos, dir) == []
    ensures |Coincidencias(unicos, dir)| <= |unicos|
    ensures forall x :: x in Coincidencias(unicos, dir) ==>
      exists k :: k in unicos && LastBaseEntry(Iterated(BaseData(dir).value).value, k, x)
  {
    if BaseData(dir).Some? && Iterated(BaseData(dir).value).Ok? {
      var entries := Iterated(BaseData(dir).value).value;
      if BaseProducts(entries).Ok? {
        var base := BaseProducts(entries).value;
        forall x | x in Matches(unicos, base)
          ensures exists k :: k in unicos && LastBaseEntry(entries, k, x)
        {
          MatchIsLastBaseEntry(unicos, entries, x);
        }
      }
    }
  }

  /** A match is the last base entry carrying one of the unique SKUs. */
  lemma MatchIsLastBaseEntry(unicos: seq<UniqueSku>, entries: seq<Json>, x: Json)
    requires BaseProducts(entries).Ok? && x in Matches(unicos, BaseProducts(entries).value)
    ensures exists k :: k in unicos && LastBaseEntry(entries, k, x)
  {
    var base := BaseProducts(entries).value;
    var k :| k in unicos && Truthy(k.sku) && Get(base, k.sku) == Some(x);
    BaseProductsStored(entries);
    assert (k.sku, x) in base;
    var i := LastWithClave(entries, k.sku);
    BaseProductsLastWins(entries, k.sku, i);
  }

  /** `x` is the last entry of the base file whose clave is the (truthy) SKU of `k`. */
  ghost predicate LastBaseEntry(entries: seq<Json>, k: UniqueSku, x: Json)
  {
    Truthy(k.sku) && HasClave(x, k.sku) &&
    exists i :: 0 <= i < |entries| && entries[i] == x && forall j :: i < j < |entries| ==> !HasClave(entries[j], k.sku)
  }

  /** The index of the last entry carrying clave `c`, given that one does. */
  ghost function LastWithClave(entries: seq<Json>, c: Json): (i: int)
    requires exists j :: 0 <= j < |entries| && HasClave(entries[j], c)
    ensures 0 <= i < |entries| && HasClave(entries[i], c)
    ensures forall j :: i < j < |entries| ==> !HasClave(entries[j], c)
  {
    LastWithClaveBelow(entries, c, |entries|)
  }

  /** The index of the last entry below `n` carrying clave `c`. */
  ghost function LastWithClaveBelow(entries: seq<Json>, c: Json, n: nat): (i: int)
    requires n <= |entries|
    requires exists j :: 0 <= j < n && HasClave(entries[j], c)
    ensures 0 <= i < n && HasClave(entries[i], c)
    ensures forall j :: i < j < n ==> !HasClave(entries[j], c)
    decreases n
  {
    if HasClave(entries[n - 1], c) then n - 1
    else
      var j :| 0 <= j < n && HasClave(entries[j], c);
      assert j < n - 1;
      LastWithClaveBelow(entries, c, n - 1)
  }


  /**
   * `comparar_json` with its two loops: the map is built entry by entry,
   * then the unique records are looked up in order.
   */
  method CompareWithBase(unicos: seq<UniqueSku>, dir: Option<Dir>) returns (coincidencias: seq<Json>)
    ensures coincidencias == Coincidencias(unicos, dir)
  {
    var data := BaseData(dir);
    if data.None? {
      return [];
    }
    var entries := Iterated(data.value);
    if entries.Err? {
      return [];
    }
    var base := BuildBase(entries.value);
    if base.Err? {
      return [];
    }
    coincidencias := [];
    var i := 0;
    while i < |unicos|
      invariant 0 <= i <= |unicos|
      invariant coincidencias == Matches(unicos[..i], base.value)
    {
      assert unicos[..i + 1][..i] == unicos[..i];
      var sku := unicos[i].sku;
      var found := Get(base.value, sku);
      if Truthy(sku) && found.Some? {
        coincidencias := coincidencias + [found.value];
      }
      i := i + 1;
    }
    assert unicos[..i] == unicos;
  }

  /** The loop that fills `base_productos`. */
  method BuildBase(entries: seq<Json>) returns (r: Result<seq<(Json, Json)>>)
    ensures r == BaseProducts(entries)
  {
    var base: seq<(Json, Json)> := [];
    var i := 0;
    while i < |entries|
      invariant 0 <= i <= |entries|
      invariant BaseProducts(entries[..i]) == Ok(base)
    {
      assert entries[..i + 1][..i] == entries[..i];
      var e := entries[i];
      if !e.JObj? {
        BaseErrSticks(entries, i + 1);
        return Err("AttributeError");
      }
      var c := GetOr(e.fields, "clave", JNull);
      if Truthy(c) {
        if !Hashable(c) {
          BaseErrSticks(entries, i + 1);
          return Err("TypeError: unhashable type");
        }
        base := Put(base, c, e);
      }
      i := i + 1;
    }
    assert entries[..i] == entries;
    r := Ok(base);
  }

  /** Once building the map raises, the whole build raises with the same error. */
  lemma {:induction false} BaseErrSticks(entries: seq<Json>, i: int)
    requires 0 <= i <= |entries| && BaseProducts(entries[..i]).Err?
    ensures BaseProducts(entries) == BaseProducts(entries[..i])
    decreases |entries| - i
  {
    if i < |entries| {
      assert entries[..i + 1][..i] == entries[..i];
      BaseErrSticks(entries, i + 1);
    } else {
      assert entries[..i] == entries;
    }
  }

  // ---------------------------------------------------------------
  // read_products_from_coincidencias
  // ---------------------------------------------------------------

  /** The product dict prepared for creation, one field per key it is given. */
  datatype NewProduct = NewProduct(
    sku: Json, nombre: Json, numParte: Json, modelo: Json, precio: Json, moneda: Json,
    tipoCambio: Json, existencia: Json, promociones: Json, subcategoria: Json, marca: Json,
    categoria: Json, upc: Json, ean: Json, descripcionCorta: Json, especificaciones: Json)

  /** `d.get(key) or default`. */
  function GetOrIfFalsy(d: seq<(string, Json)>, key: string, default: Json): (r: Json)
    ensures Truthy(r) ==> (key, r) in d || r == default
    ensures !Truthy(r) ==> r == default
  {
    var v := Get(d, key);
    if v.Some? && Truthy(v.value) then v.value else default
  }

  /**
   * One product of `read_products_from_coincidencias`: each key is read
   * with its default when absent; `upc` and `ean` fall back to '' and
   * `especificaciones` to [] when falsy.
   */
  function ProductFor(p: seq<(string, Json)>): (r: NewProduct)
    ensures HasKey(p, "clave") ==> ("clave", r.sku) in p
    ensures !HasKey(p, "clave") ==> r.sku == JStr("Sin SKU")
    ensures !HasKey(p, "moneda") ==> r.moneda == JStr("MXN")
    ensures !HasKey(p, "tipoCambio") ==> r.tipoCambio == JInt(1)
    ensures Truthy(r.upc) ==> ("upc", r.upc) in p
    ensures !Truthy(r.upc) ==> r.upc == JStr("")
    ensures Truthy(r.ean) ==> ("ean", r.ean) in p
    ensures !Truthy(r.ean) ==> r.ean == JStr("")
    ensures Truthy(r.especificaciones) ==> ("especificaciones", r.especificaciones) in p
    ensures !Truthy(r.especificaciones) ==> r.especificaciones == JList([])
  {
    NewProduct(
      GetOr(p, "clave", JStr("Sin SKU")),
      GetOr(p, "nombre", JStr("Sin nombre")),
      GetOr(p, "numParte", JStr("Sin número de parte")),
      GetOr(p, "modelo", JStr("Sin modelo")),
      GetOr(p, "precio", JInt(0)),
      GetOr(p, "moneda", JStr("MXN")),
      GetOr(p, "tipoCambio", JInt(1)),
      GetOr(p, "existencia", JObj([])),
      GetOr(p, "promociones", JList([])),
      GetOr(p, "subcategoria", JStr("Sin subcategoría")),
      GetOr(p, "marca", JStr("Sin marca")),
      GetOr(p, "categoria", JStr("Sin categoría")),
      GetOrIfFalsy(p, "upc", JStr("")),
      GetOrIfFalsy(p, "ean", JStr("")),
      GetOr(p, "descripcion_corta", JStr("")),
      GetOrIfFalsy(p, "especificaciones", JList([])))
  }

  /** `read_products_from_coincidencias(coincidencias)`: one product per match, in order. */
  function ProductsFor(coincidencias: seq<Json>): (r: seq<NewProduct>)
    requires forall x :: x in coincidencias ==> x.JObj?
    ensures |r| == |coincidencias|
    ensures forall i :: 0 <= i < |r| ==> r[i] == ProductFor(coincidencias[i].fields)
  {
    seq(|coincidencias|, i requires 0 <= i < |coincidencias| => ProductFor(coincidencias[i].fields))
  }

  // ---------------------------------------------------------------
  // Tags of a new product
  // ---------------------------------------------------------------

  /** The promotion tags added while a promotion is active. */
  const PromoTags: seq<string> := ["Promoción", "Promociones", "Oferta", "Ofertas", "Descuentos", "Rebajas"]

  /** What sanitising makes of them: the accented letter of "Promoción" is deleted. */
  const SanitizedPromoTags: seq<string> := ["Promocin"] + PromoTags[1..]

  /** `v.strip() if v else None`; a truthy value that is not a string raises. */
  function StrippedTag(v: Json): (r: Result<Option<string>>)
    ensures r == Ok(None) <==> !Truthy(v)
    ensures r.Err? <==> Truthy(v) && !v.JStr?
  {
    if !Truthy(v) then Ok(None)
    else if v.JStr? then Ok(Some(Strip(v.s)))
    else Err("AttributeError")
  }

  /** `m.strip() if m and m.strip() != '-' else None`: a modelo of just "-" gives no tag. */
  function ModeloTag(m: Json): (r: Result<Option<string>>)
    ensures m.JStr? && Strip(m.s) == "-" ==> r == Ok(None)
    ensures r.Ok? && r.value.Some? ==> m.JStr? && r.value.value == Strip(m.s) && r.value.value != "-"
  {
    if !Truthy(m) then Ok(None)
    else if !m.JStr? then Err("AttributeError")
    else if Strip(m.s) != "-" then Ok(Some(Strip(m.s)))
    else Ok(None)
  }

  /** The tag candidates of the product fields, in the order they are listed. */
  function FieldCandidates(p: NewProduct): seq<Result<Option<string>>>
  {
    [StrippedTag(p.numParte), StrippedTag(p.marca), StrippedTag(p.categoria), StrippedTag(p.subcategoria),
     ModeloTag(p.modelo), StrippedTag(p.upc), StrippedTag(p.ean)]
  }

  /** The tags taken from the product fields, before sanitising. */
  function FieldTags(p: NewProduct): Result<seq<string>>
  {
    Collect(FieldCandidates(p))
  }

  /**
   * The tag list sent with a new product: the field tags, then the six
   * promotion tags while a promotion is active, sanitised, with the
   * 'SinTag' default.
   */
  function CreationTags(p: NewProduct, active: bool): (r: Result<seq<string>>)
    ensures r.Ok? <==> FieldTags(p).Ok?
    ensures r.Ok? ==> r.value != [] && forall t :: t in r.value ==> WellFormedTag(t)
  {
    match FieldTags(p)
    case Err(e) => Err(e)
    case Ok(tags) =>
      var s := Sanitized(SomeTags(tags + if active then PromoTags else []));
      SanitizedWellFormed(SomeTags(tags + if active then PromoTags else []));
      Ok(OrDefault(s))
  }

  lemma SanitizedWellFormed(tags: seq<Option<string>>)
    ensures forall t :: t in Sanitized(tags) ==> WellFormedTag(t)
  {
    forall t | t in Sanitized(tags) ensures WellFormedTag(t) {
      SanitizedMembers(tags, t);
      var i :| 0 <= i < |tags| && Kept(tags[i]) && CleanTag(tags[i].value) == t;
      CleanTagWellFormed(tags[i].value);
    }
  }

  /** A modelo of just "-" contributes nothing: the tags are those of a product without modelo. */
  lemma ModeloDashIgnored(p: NewProduct)
    requires p.modelo.JStr? && Strip(p.modelo.s) == "-"
    ensures FieldTags(p) == FieldTags(p.(modelo := JNull))
  {
    assert FieldCandidates(p) == FieldCandidates(p.(modelo := JNull));
  }

  /** Each of the five unaccented promotion words passes through sanitising untouched. */
  lemma WordUnchanged(w: string)
    requires w in PromoTags[1..]
    ensures PassesUnchanged(w)
  {
    assert forall i :: 0 <= i < |w| ==> IsAsciiLetter(w[i]);
    LetterWordKept(w);
  }

  lemma PromoWordsUnchanged()
    ensures forall k :: 1 <= k < |PromoTags| ==> PassesUnchanged(PromoTags[k])
  {
    forall k | 1 <= k < |PromoTags| ensures PassesUnchanged(PromoTags[k]) {
      WordUnchanged(PromoTags[k]);
    }
  }

  /** Sanitising the six promotion tags keeps all of them, with "Promoción" turned into "Promocin". */
  lemma PromoTagsSanitized()
    ensures Sanitized(SomeTags(PromoTags)) == SanitizedPromoTags
  {
    PromoWordsUnchanged();
    TailAllUnchanged(PromoTags);
    PromotionTagRewritten();
    HeadCleanedTailKept(PromoTags);
  }

  /**
   * With an active promotion the list ends with the five promotion words
   * and "Promocin", never with "Promoción" itself; without one it is the
   * sanitised field tags, or ['SinTag'].
   */
  lemma CreationTagsPromotion(p: NewProduct, tags: seq<string>)
    requires FieldTags(p) == Ok(tags)
    ensures CreationTags(p, true) == Ok(Sanitized(SomeTags(tags)) + SanitizedPromoTags)
    ensures CreationTags(p, false) == Ok(OrDefault(Sanitized(SomeTags(tags))))
  {
    SomeTagsAppend(tags, PromoTags);
    SanitizedAppend(SomeTags(tags), SomeTags(PromoTags));
    PromoTagsSanitized();
    assert tags + [] == tags;
  }

  /** With the promotion active, the accented "Promoción" never reaches the shop: "Promocin" does. */
  lemma PromotionTagRenamed(p: NewProduct, tags: seq<string>)
    requires FieldTags(p) == Ok(tags)
    ensures "Promoción" !in CreationTags(p, true).value && "Promocin" in CreationTags(p, true).value
  {
    CreationTagsPromotion(p, tags);
    PromotionTagNotClean();
    assert SanitizedPromoTags[0] == "Promocin";
  }

  // ---------------------------------------------------------------
  // Preparing one creation (crear_producto_sin_variantes)
  // ---------------------------------------------------------------

  /**
   * The exchange rate applied: `tipoCambio` only when the stripped,
   * upper-cased `moneda` is "USD", 1 otherwise. `float(tipoCambio)`,
   * `float(precio)` and `moneda.strip()` may raise.
   */
  function ExchangeRate(p: NewProduct, parse: string -> Option<real>): (r: Result<real>)
    ensures r.Ok? <==> FloatOf(p.tipoCambio, parse).Some? && FloatOf(p.precio, parse).Some? && p.moneda.JStr?
    ensures r.Ok? ==> (r.value == FloatOf(p.tipoCambio, parse).value <== Upper(Strip(p.moneda.s)) == "USD")
    ensures r.Ok? && Upper(Strip(p.moneda.s)) != "USD" ==> r.value == 1.0
  {
    var tc := FloatOf(p.tipoCambio, parse);
    if tc.None? || FloatOf(p.precio, parse).None? || !p.moneda.JStr? then Err("ValueError")
    else if Upper(Strip(p.moneda.s)) == "USD" then Ok(tc.value)
    else Ok(1.0)
  }

  /** The case of the currency code and its surrounding whitespace do not matter. */
  lemma LowerCaseUsdApplies(p: NewProduct, parse: string -> Option<real>)
    requires p.moneda == JStr(" usd ") && FloatOf(p.tipoCambio, parse).Some? && FloatOf(p.precio, parse).Some?
    ensures ExchangeRate(p, parse) == Ok(FloatOf(p.tipoCambio, parse).value)
  {
    var s := " usd ";
    assert IsSpace(s[0]) && !IsSpace(s[1]) && !IsSpace(s[3]) && IsSpace(s[4]);
    assert LeadingSpaces(s) == 1;
    assert TrailingStart(s) == 4;
    assert Strip(s) == "usd";
  }

  /** `sum(existencia.values())`: every value must be a number (a bool counts as one). */
  function StockSum(existencia: Json): (r: Result<real>)
    ensures r.Ok? <==> existencia.JObj? && forall e :: e in existencia.fields ==> NumericValue(e.1).Some?
  {
    if !existencia.JObj? then Err("AttributeError")
    else SumValues(existencia.fields)
  }

  function SumValues(fields: seq<(string, Json)>): (r: Result<real>)
    ensures r.Ok? <==> forall e :: e in fields ==> NumericValue(e.1).Some?
  {
    if fields == [] then Ok(0.0)
    else
      var init, last := fields[..|fields| - 1], fields[|fields| - 1];
      assert forall e :: e in fields <==> e == last || e in init;
      var rest := SumValues(init);
      var v := NumericValue(last.1);
      if rest.Err? then rest
      else if v.None? then Err("TypeError")
      else Ok(rest.value + v.value)
  }

  /**
   * `d['promociones'][0]['vigencia']['fin'] if d.get('promociones') else ...`
   * does not raise: falsy promotions, or a list whose first element is a
   * dict whose `vigencia` is a dict holding `fin`.
   */
  predicate VigenciaReadable(promociones: Json)
  {
    !Truthy(promociones)
    || (promociones.JList? && promociones.items[0].JObj?
        && Get(promociones.items[0].fields, "vigencia").Some?
        && Get(promociones.items[0].fields, "vigencia").value.JObj?
        && HasKey(Get(promociones.items[0].fields, "vigencia").value.fields, "fin"))
  }

  /** Every report row calls `.strip()` on `nombre`, `numParte` and `modelo`: they must be strings. */
  predicate RowStrippable(p: NewProduct)
  {
    p.nombre.JStr? && p.numParte.JStr? && p.modelo.JStr?
  }

  /** The 'Ya Existe' row can be built: the three columns strip, the price converts, the stock sums and the end date reads. */
  predicate ExistingRowOk(p: NewProduct, parse: string -> Option<real>)
  {
    RowStrippable(p) && FloatOf(p.precio, parse).Some? && StockSum(p.existencia).Ok? && VigenciaReadable(p.promociones)
  }

  /** `upc or ean`, each already '' when falsy. */
  function Barcode(p: NewProduct): Json
  {
    if Truthy(p.upc) then p.upc else p.ean
  }

  /** The request body can be built: title, vendor, product type and barcode are stripped, so all four must be strings. */
  predicate BodyOk(p: NewProduct)
  {
    p.nombre.JStr? && p.marca.JStr? && p.categoria.JStr? && Barcode(p).JStr?
  }

  /** How the preparation of one product ends. */
  datatype Preparation =
    | AlreadyExists                                 // 'Ya Existe': reported, nothing created
    | Crashed                                       // an exception: logged, in neither report
    | NoClave                                       // a falsy SKU: skipped, in neither report
    | Ready(rate: real, stock: real, tags: seq<string>)

  /**
   * `crear_producto_sin_variantes` up to the creation call. `existing` is
   * the SKU set read from Shopify, `active` whether the promotion window
   * holds today (None when reading the promotion's dates raises), `parse`
   * the outcome of `float()` on a string. A SKU the shop has is reported
   * 'Ya Existe' when its row can be built; otherwise building the row
   * raises before the `try`, and the wrapper only logs it.
   */
  function Prepare(p: NewProduct, existing: set<Json>, active: Option<bool>, parse: string -> Option<real>): (r: Preparation)
    ensures r == AlreadyExists <==> p.sku in existing && ExistingRowOk(p, parse)
    ensures p.sku in existing ==> r == AlreadyExists || r == Crashed
    ensures r.Ready? ==>
      && Truthy(p.sku) && p.sku.JStr? && p.sku !in existing && r.tags != [] && BodyOk(p) && active.Some?
      && ExchangeRate(p, parse) == Ok(r.rate) && CreationTags(p, active.value) == Ok(r.tags)
      && StockSum(p.existencia) == Ok(r.stock)
    ensures r == NoClave ==> !Truthy(p.sku)
    ensures p.sku !in existing && !BodyOk(p) ==> r == Crashed || r == NoClave
    ensures p.sku !in existing && Truthy(p.sku) && !p.sku.JStr? ==> r == Crashed
  {
    if p.sku in existing then
      if ExistingRowOk(p, parse) then AlreadyExists else Crashed
    else
      var rate := ExchangeRate(p, parse);
      if rate.Err? || active.None? then Crashed
      else
        var stock := StockSum(p.existencia);
        if stock.Err? then Crashed
        else if !Truthy(p.sku) then NoClave
        else if !p.sku.JStr? then Crashed  // `os.path.join(ruta_base_dir, clave)` raises TypeError
        else
          match CreationTags(p, active.value)
          case Err(_) => Crashed
          case Ok(tags) => if BodyOk(p) then Ready(rate.value, stock.value, tags) else Crashed
  }

  /**
   * The shop's answer to the creation request: the product with its id,
   * status 429 (re-raised inside the handler, so the product is only
   * logged), another error status, or a body without the product or its id.
   */
  datatype CreateAnswer = Created | Throttled | Rejected | Malformed

  // ---------------------------------------------------------------
  // procesar_coincidencias
  // ---------------------------------------------------------------

  /**
   * What one product adds to the two reports once it is ready (created,
   * failed), by the shop's answer. Each row strips the three columns
   * again, and the row of a rejected request also reads the end date; a
   * row that raises leaves the product in neither report, even one the
   * shop created.
   */
  function ReadyRow(p: NewProduct, answer: CreateAnswer): (bool, bool)
  {
    match answer
    case Created => (RowStrippable(p), false)
    case Throttled => (false, false)
    case Rejected => (false, RowStrippable(p) && VigenciaReadable(p.promociones))
    case Malformed => (false, RowStrippable(p))
  }

  /**
   * The report rows the loop appends: `creados` holds the SKUs of the
   * products created, `fallidos` those reported as existing or failing at
   * the creation call (`answer` is the shop's answer).
   */
  function Reports(products: seq<NewProduct>, existing: set<Json>, active: NewProduct -> Option<bool>,
                   parse: string -> Option<real>, answer: Json -> CreateAnswer): (r: (seq<Json>, seq<Json>))
    ensures |r.0| + |r.1| <= |products|
  {
    if products == [] then ([], [])
    else
      var init, p := products[..|products| - 1], products[|products| - 1];
      var (c, f) := Reports(init, existing, active, parse, answer);
      match Prepare(p, existing, active(p), parse)
      case AlreadyExists => (c, f + [p.sku])
      case Ready(_, _, _) =>
        var (created, failed) := ReadyRow(p, answer(p.sku));
        if created then (c + [p.sku], f) else if failed then (c, f + [p.sku]) else (c, f)
      case _ => (c, f)
  }

  /**
   * The loop of `procesar_coincidencias`; every product is handled, an
   * exception only ends that product. Returns the two reports and the
   * total processed.
   */
  method ProcessCoincidences(products: seq<NewProduct>, existing: set<Json>, active: NewProduct -> Option<bool>,
                             parse: string -> Option<real>, answer: Json -> CreateAnswer)
    returns (creados: seq<Json>, fallidos: seq<Json>, total: nat)
    ensures (creados, fallidos) == Reports(products, existing, active, parse, answer)
    ensures total == |products| && |creados| + |fallidos| <= total
  {
    creados, fallidos := [], [];
    var i := 0;
    while i < |products|
      invariant 0 <= i <= |products|
      invariant (creados, fallidos) == Reports(products[..i], existing, active, parse, answer)
    {
      assert products[..i + 1][..i] == products[..i];
      var p := products[i];
      var prep := Prepare(p, existing, active(p), parse);
      if prep == AlreadyExists {
        fallidos := fallidos + [p.sku];
      } else if prep.Ready? {
        var (created, failed) := ReadyRow(p, answer(p.sku));
        if created {
          creados := creados + [p.sku];
        } else if failed {
          fallidos := fallidos + [p.sku];
        }
      }
      i := i + 1;
    }
    assert products[..i] == products;
    total := |products|;
  }

  /** A product whose SKU is already in the shop is reported as existing and never created. */
  lemma ExistingNeverCreated(products: seq<NewProduct>, existing: set<Json>, active: NewProduct -> Option<bool>,
                             parse: string -> Option<real>, answer: Json -> CreateAnswer, s: Json)
    requires s in existing
    ensures s !in Reports(products, existing, active, parse, answer).0
  {
    if products != [] {
      ExistingNeverCreated(products[..|products| - 1], existing, active, parse, answer, s);
    }
  }

  /**
   * A SKU reaches `creados` only when the shop created it and the product
   * was ready: a new, truthy SKU whose request body could be built.
   */
  lemma {:induction false} CreatedWereReady(products: seq<NewProduct>, existing: set<Json>, active: NewProduct -> Option<bool>,
                                           parse: string -> Option<real>, answer: Json -> CreateAnswer, s: Json)
    requires s in Reports(products, existing, active, parse, answer).0
    ensures answer(s) == Created && s !in existing
    ensures exists p :: p in products && p.sku == s && Prepare(p, existing, active(p), parse).Ready? && RowStrippable(p)
  {
    var init, p := products[..|products| - 1], products[|products| - 1];
    var (c, f) := Reports(init, existing, active, parse, answer);
    if s in c {
      CreatedWereReady(init, existing, active, parse, answer, s);
      var q :| q in init && q.sku == s && Prepare(q, existing, active(q), parse).Ready? && RowStrippable(q);
      assert q in products;
    } else {
      assert p in products;
    }
  }

  /**
   * A product the shop creates whose `numParte` or `modelo` is not a string
   * (a JSON null, say) is created but lands in neither report: building
   * its row raises after the creation call.
   */
  lemma CreatedButUnreported(p: NewProduct, existing: set<Json>, active: NewProduct -> Option<bool>,
                             parse: string -> Option<real>, answer: Json -> CreateAnswer)
    requires Prepare(p, existing, active(p), parse).Ready? && answer(p.sku) == Created
    requires !p.numParte.JStr?
    ensures Reports([p], existing, active, parse, answer) == ([], [])
  {
    assert [p][..0] == [];
  }

  // ---------------------------------------------------------------
  // The run of main
  // ---------------------------------------------------------------

  /**
   * The products `main` hands to creation: the failure rows of the common
   * and the old reports directories (a missing directory is skipped), made
   * unique and matched against the base folder.
   */
  function ProductsToCreate(comunes: Option<seq<CsvFile>>, antiguos: Option<seq<CsvFile>>, baseDir: Option<Dir>): seq<Json>
  {
    var rows := (if comunes.Some? then FailureRows(comunes.value) else [])
              + (if antiguos.Some? then FailureRows(antiguos.value) else []);
    Coincidencias(Values(UniqueDict(rows)), baseDir)
  }

  /** `row` is a row of a failure report of the directory, when the directory exists. */
  ghost predicate ReportedIn(files: Option<seq<CsvFile>>, row: FailureRow)
  {
    files.Some? && exists f :: f in files.value && Contributes(f) && row in f.rows.value
  }

  /**
   * Only products the reports name are created: each product handed to
   * creation is an entry of the base file whose clave is the truthy SKU of
   * a 'SKU no encontrado' row of the common or the old reports.
   */
  lemma ProductsToCreateMeaning(comunes: Option<seq<CsvFile>>, antiguos: Option<seq<CsvFile>>, baseDir: Option<Dir>)
    ensures BaseData(baseDir).None? ==> ProductsToCreate(comunes, antiguos, baseDir) == []
    ensures forall x :: x in ProductsToCreate(comunes, antiguos, baseDir) ==>
      exists row :: SkuNotFoundRow(row) && (ReportedIn(comunes, row) || ReportedIn(antiguos, row))
                    && Truthy(row.sku) && HasClave(x, row.sku)
  {
    var rc := if comunes.Some? then FailureRows(comunes.value) else [];
    var ra := if antiguos.Some? then FailureRows(antiguos.value) else [];
    var rows := rc + ra;
    var unicos := Values(UniqueDict(rows));
    CoincidenciasMeaning(unicos, baseDir);
    UniqueIsFirstOccurrences(rows);
    forall x | x in ProductsToCreate(comunes, antiguos, baseDir)
      ensures exists row :: SkuNotFoundRow(row) && (ReportedIn(comunes, row) || ReportedIn(antiguos, row))
                            && Truthy(row.sku) && HasClave(x, row.sku)
    {
      var k :| k in unicos && LastBaseEntry(Iterated(BaseData(baseDir).value).value, k, x);
      FirstOccurrencesFromRows(rows, k);
      var i :| 0 <= i < |rows| && UniqueOf(rows[i]) == k && Truthy(rows[i].sku);
      var row := rows[i];
      InConcat(rc, ra, i);
      if i < |rc| {
        FailureRowsMeaning(comunes.value, row);
      } else {
        FailureRowsMeaning(antiguos.value, row);
      }
      assert HasClave(x, row.sku);
    }
  }
}
