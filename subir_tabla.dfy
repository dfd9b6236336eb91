/**
 * The job that uploads the converted "Características" and "Información
 * adicional" accordions of each pending SKU as Shopify metafields and
 * records the uploads in the `subirdesplegable` and `informaciontablas`
 * tables. The Shopify answers, the HTML files and their selected
 * elements are inputs; the two tables are the fields of a `Database`.
 */
module SubirTabla {
  import opened Common

  // ---------------------------------------------------------------
  // SKU normalisation and lookup
  // ---------------------------------------------------------------

  /** The key under which a SKU is stored and looked up: `sku.strip().lower()`. */
  function Normalize(sku: string): string
  {
    Lower(Strip(sku))
  }

  /** `lower()` keeps whitespace and non-whitespace apart. */
  lemma LowerCharSpace(c: char)
    ensures IsSpace(LowerChar(c)) <==> IsSpace(c)
  {
  }

  /** `upper()` keeps whitespace and non-whitespace apart, and `lower()` undoes it. */
  lemma UpperCharSpace(c: char)
    ensures IsSpace(UpperChar(c)) <==> IsSpace(c)
    ensures LowerChar(UpperChar(c)) == LowerChar(c)
  {
  }

  /** Normalising a key again leaves it as it is. */
  lemma NormalizeIdempotent(sku: string)
    ensures Normalize(Normalize(sku)) == Normalize(sku)
  {
    var s := Strip(sku);
    var l := Lower(s);
    if l != [] {
      LowerCharSpace(s[0]);
      LowerCharSpace(s[|s| - 1]);
    }
    StripUnchanged(l);
    LowerIdempotent(s);
  }

  /**
   * `procesar_sku` looks up `sku.strip().upper()`, which
   * `obtener_producto_por_sku` strips and lower-cases again: the key is
   * the normalised raw SKU.
   */
  lemma LookupKeyOfCode(sku: string)
    ensures Normalize(Upper(Strip(sku))) == Normalize(sku)
  {
    var s := Strip(sku);
    var u := Upper(s);
    if u != [] {
      UpperCharSpace(s[0]);
      UpperCharSpace(s[|s| - 1]);
    }
    StripUnchanged(u);
    forall i | 0 <= i < |s| ensures Lower(u)[i] == Lower(s)[i] {
      UpperCharSpace(s[i]);
    }
  }

  /** The SKU index: normalised variant SKU to the product's `id` (None when absent). */
  type SkuMap = map<string, Option<int>>

  /** Every key is non-empty and normalised. */
  predicate NormalizedKeys(m: SkuMap)
  {
    forall k :: k in m ==> k != [] && Normalize(k) == k
  }

  /** `obtener_producto_por_sku(sku, m)`: `m.get(sku.strip().lower())`. */
  function ObtenerProductoPorSku(sku: string, m: SkuMap): (r: Option<int>)
    ensures Normalize(sku) !in m ==> r.None?
  {
    var k := Normalize(sku);
    if k in m then m[k] else None
  }

  /** The lookup finds a product: the id is present and not 0. */
  predicate Found(id: Option<int>)
  {
    id.Some? && id.value != 0
  }

  // ---------------------------------------------------------------
  // One page of products
  // ---------------------------------------------------------------

  /** A product of `products.json`: its `id` and the `sku` of each variant. */
  datatype Product = Product(id: Option<int>, variantSkus: seq<string>)

  /** The lookup keys of a product's variant SKUs. */
  function Keys(skus: seq<string>): (r: seq<string>)
    ensures |r| == |skus| && forall j :: 0 <= j < |skus| ==> r[j] == Normalize(skus[j])
  {
    seq(|skus|, j requires 0 <= j < |skus| => Normalize(skus[j]))
  }

  /** `m[k] = id` for every non-empty key, in order. */
  function Insert(m: SkuMap, id: Option<int>, keys: seq<string>): (r: SkuMap)
  {
    InsertFirst(m, id, keys, |keys|)
  }

  /** `m[k] = id` for the non-empty keys among the first `n`. */
  function InsertFirst(m: SkuMap, id: Option<int>, keys: seq<string>, n: nat): (r: SkuMap)
    requires n <= |keys|
  {
    if n == 0 then m
    else
      var prev := InsertFirst(m, id, keys, n - 1);
      var k := keys[n - 1];
      if k != [] then prev[k := id] else prev
  }

  /** The products of one page, in order; a later product wins a shared key. */
  function AddProducts(m: SkuMap, ps: seq<Product>): (r: SkuMap)
  {
    if ps == [] then m
    else Insert(AddProducts(m, ps[..|ps| - 1]), ps[|ps| - 1].id, Keys(ps[|ps| - 1].variantSkus))
  }

  lemma AddProductsSnoc(m: SkuMap, ps: seq<Product>, p: Product)
    ensures AddProducts(m, ps + [p]) == Insert(AddProducts(m, ps), p.id, Keys(p.variantSkus))
  {
    assert (ps + [p])[..|ps|] == ps;
  }

  /** The loop over the `variants` of one product, each variant's `sku.strip().lower()` in `keys`. */
  method AddVariants(m: SkuMap, id: Option<int>, keys: seq<string>) returns (r: SkuMap)
    ensures r == Insert(m, id, keys)
  {
    r := m;
    var j := 0;
    while j < |keys|
      invariant 0 <= j <= |keys|
      invariant r == InsertFirst(m, id, keys, j)
    {
      var variantSku := keys[j];
      if variantSku != [] {
        r := r[variantSku := id];
      }
      j := j + 1;
    }
  }

  /** The loop over the `products` of one page. */
  method AddPage(m: SkuMap, productos: seq<Product>) returns (r: SkuMap)
    ensures r == AddProducts(m, productos)
  {
    r := m;
    var i := 0;
    while i < |productos|
      invariant 0 <= i <= |productos|
      invariant r == AddProducts(m, productos[..i])
    {
      var producto := productos[i];
      r := AddVariants(r, producto.id, Keys(producto.variantSkus));
      TakeSnoc(productos, i);
      AddProductsSnoc(m, productos[..i], producto);
      i := i + 1;
    }
    assert productos[..i] == productos;
  }

  /** Some variant of `ps` normalises to `k`. */
  predicate VariantKey(ps: seq<Product>, k: string)
  {
    exists i | 0 <= i < |ps| :: k in Keys(ps[i].variantSkus)
  }

  /** A key is set by one product iff it was there before or it is one of the product's non-empty keys. */
  lemma InsertKeys(m: SkuMap, id: Option<int>, keys: seq<string>, k: string)
    ensures k in Insert(m, id, keys) <==> k in m || (k != [] && k in keys)
  {
    InsertFirstKeys(m, id, keys, |keys|, k);
  }

  lemma {:induction false} InsertFirstKeys(m: SkuMap, id: Option<int>, keys: seq<string>, n: nat, k: string)
    requires n <= |keys|
    ensures k in InsertFirst(m, id, keys, n) <==> k in m || (k != [] && exists j | 0 <= j < n :: keys[j] == k)
  {
    if n > 0 {
      InsertFirstKeys(m, id, keys, n - 1, k);
    }
  }

  /**
   * After a page the index holds exactly the earlier keys and the
   * non-empty normalised SKUs of the page's variants.
   */
  lemma {:induction false} AddProductsKeys(m: SkuMap, ps: seq<Product>, k: string)
    ensures k in AddProducts(m, ps) <==> k in m || (k != [] && VariantKey(ps, k))
  {
    if ps != [] {
      var p := ps[..|ps| - 1];
      var last := ps[|ps| - 1];
      AddProductsKeys(m, p, k);
      InsertKeys(AddProducts(m, p), last.id, Keys(last.variantSkus), k);
      if VariantKey(ps, k) && !VariantKey(p, k) {
        var i :| 0 <= i < |ps| && k in Keys(ps[i].variantSkus);
        if i < |p| {
          assert p[i] == ps[i];
        }
      }
      if VariantKey(p, k) {
        var i :| 0 <= i < |p| && k in Keys(p[i].variantSkus);
        assert ps[i] == p[i];
      }
    }
  }

  /** Indexing a page keeps every key non-empty and normalised. */
  lemma {:induction false} AddProductsNormalized(m: SkuMap, ps: seq<Product>)
    requires NormalizedKeys(m)
    ensures NormalizedKeys(AddProducts(m, ps))
  {
    forall k | k in AddProducts(m, ps) ensures k != [] && Normalize(k) == k {
      AddProductsKeys(m, ps, k);
      if k !in m {
        var i :| 0 <= i < |ps| && k in Keys(ps[i].variantSkus);
        var keys := Keys(ps[i].variantSkus);
        var j :| 0 <= j < |keys| && keys[j] == k;
        NormalizeIdempotent(ps[i].variantSkus[j]);
      }
    }
  }

  /** A variant of the last product of a page maps to that product. */
  lemma LastProductWins(m: SkuMap, ps: seq<Product>, k: string)
    requires ps != [] && k != [] && k in Keys(ps[|ps| - 1].variantSkus)
    ensures k in AddProducts(m, ps) && AddProducts(m, ps)[k] == ps[|ps| - 1].id
  {
    var last := ps[|ps| - 1];
    InsertedKeyHasId(AddProducts(m, ps[..|ps| - 1]), last.id, Keys(last.variantSkus), k);
  }

  lemma InsertedKeyHasId(m: SkuMap, id: Option<int>, keys: seq<string>, k: string)
    requires k in keys && k != []
    ensures k in Insert(m, id, keys) && Insert(m, id, keys)[k] == id
  {
    var j :| 0 <= j < |keys| && keys[j] == k;
    InsertFirstHasId(m, id, keys, |keys|, j);
  }

  lemma {:induction false} InsertFirstHasId(m: SkuMap, id: Option<int>, keys: seq<string>, n: nat, j: nat)
    requires j < n <= |keys| && keys[j] != []
    ensures keys[j] in InsertFirst(m, id, keys, n) && InsertFirst(m, id, keys, n)[keys[j]] == id
  {
    if j < n - 1 {
      InsertFirstHasId(m, id, keys, n - 1, j);
    }
  }

  // ---------------------------------------------------------------
  // The Link header
  // ---------------------------------------------------------------

  /** The marker of the next page's link. */
  const RelNext: string := "rel=\"next\""

  /** `s[a:b]` for `0 <= a <= |s|` and `-1 <= b`, a negative `b` counting from the end. */
  function PySlice(s: string, a: int, b: int): (r: string)
    requires 0 <= a <= |s| && -1 <= b < |s|
    ensures a < b ==> r == s[a..b]
  {
    var e := if b >= 0 then b else if |s| > 0 then |s| - 1 else 0;
    if a < e then s[a..e] else []
  }

  /** The first segment that contains `marker`. */
  function FirstContaining(segs: seq<string>, marker: string): (r: Option<nat>)
    ensures r.Some? ==>
      (r.value < |segs| && ContainsSub(segs[r.value], marker)
       && forall j :: 0 <= j < r.value ==> !ContainsSub(segs[j], marker))
    ensures r.None? ==> forall j :: 0 <= j < |segs| ==> !ContainsSub(segs[j], marker)
  {
    if segs == [] then None
    else if ContainsSub(segs[0], marker) then Some(0)
    else
      var rest := FirstContaining(segs[1..], marker);
      if rest.None? then None else Some(rest.value + 1)
  }

  /** The text between the first `<` and the first `>` of a segment. */
  function Bracketed(seg: string): string
  {
    PySlice(seg, FindChar(seg, '<') + 1, FindChar(seg, '>'))
  }

  /**
   * The URL of the next page: from the first comma-separated segment of
   * the Link header that contains `marker`; None when there is none or
   * the text between its brackets is empty.
   */
  function NextUrl(header: string, marker: string): (r: Option<string>)
    ensures r.Some? ==> r.value != []
  {
    if header == [] then None
    else
      var segs := Split(header, ',');
      var first := FirstContaining(segs, marker);
      if first.None? then None
      else
        var url := Bracketed(segs[first.value]);
        if url == [] then None else Some(url)
  }

  /**
   * A header whose segments are comma-free yields the bracketed text of
   * its first segment holding the marker, when that text is not empty.
   */
  lemma NextUrlOfSegments(segs: seq<string>, k: nat, url: string, marker: string)
    requires k < |segs| && forall s :: s in segs ==> ',' !in s
    requires forall j :: 0 <= j < k ==> !ContainsSub(segs[j], marker)
    requires ContainsSub(segs[k], marker) && Bracketed(segs[k]) == url && url != []
    ensures NextUrl(Join(segs, ','), marker) == Some(url)
  {
    SplitJoin(segs, ',');
    if Join(segs, ',') == [] {
      SplitNothing();
      BracketedNothing();
      assert false;
    }
    var f := FirstContaining(segs, marker);
    assert f.Some?;
    assert f.value == k;
    assert Bracketed(segs[f.value]) == url;
  }

  lemma SplitNothing()
    ensures Split([], ',') == [[]]
  {
  }

  lemma BracketedNothing()
    ensures Bracketed([]) == []
  {
  }

  /** The link of a page written `pre<url>post`, `pre` and `url` free of brackets, is `url`. */
  lemma BracketedUrl(pre: string, url: string, post: string)
    requires '<' !in pre && '>' !in pre && '>' !in url
    ensures Bracketed(pre + "<" + url + ">" + post) == url
  {
    var seg := pre + "<" + url + ">" + post;
    FirstCharAt(seg, '<', |pre|);
    FirstCharAt(seg, '>', |pre| + 1 + |url|);
    assert seg[|pre| + 1..|pre| + 1 + |url|] == url;
  }

  /** `find` stops at the first occurrence. */
  lemma FirstCharAt(s: string, c: char, i: nat)
    requires i < |s| && s[i] == c && c !in s[..i]
    ensures FindChar(s, c) == i
  {
  }

  // ---------------------------------------------------------------
  // obtener_todos_skus_shopify
  // ---------------------------------------------------------------

  /** A Shopify answer: the status, the page's products and its Link header. */
  datatype Response = Response(status: int, products: seq<Product>, link: string)

  /**
   * The index built from the answers received, in order, starting at
   * `endpoint`, and the URLs requested: no answer or a status other than
   * 200 or 429 stops, 429 asks for the same page again, 200 indexes the
   * page and moves to the next page's URL while there is one.
   */
  function Paginate(m: SkuMap, endpoint: Option<string>, answers: seq<Option<Response>>): (r: (SkuMap, seq<string>))
    ensures |r.1| <= |answers|
    decreases |answers|
  {
    if endpoint.None? || answers == [] then (m, [])
    else
      var (next, ep) := PageStep(m, endpoint, answers[0]);
      var rest := Paginate(next, ep, answers[1..]);
      (rest.0, [endpoint.value] + rest.1)
  }

  /** One answer of the pagination: the index and the endpoint after it. */
  function PageStep(m: SkuMap, endpoint: Option<string>, a: Option<Response>): (SkuMap, Option<string>)
  {
    if a.None? then (m, None)
    else if a.value.status == 429 then (m, endpoint)
    else if a.value.status != 200 then (m, None)
    else (AddProducts(m, a.value.products), NextUrl(a.value.link, RelNext))
  }

  /** The pagination from the `i`-th answer on, unfolded once. */
  lemma PaginateUnfold(m: SkuMap, endpoint: Option<string>, answers: seq<Option<Response>>, i: nat)
    requires endpoint.Some? && i < |answers|
    ensures var s := PageStep(m, endpoint, answers[i]);
      var rest := Paginate(s.0, s.1, answers[i + 1..]);
      Paginate(m, endpoint, answers[i..]) == (rest.0, [endpoint.value] + rest.1)
  {
    assert answers[i..][0] == answers[i];
    assert answers[i..][1..] == answers[i + 1..];
  }

  /** The SKU index of `obtener_todos_skus_shopify`, fed the answers of one run in order. */
  method ObtenerTodosSkus(first: string, answers: seq<Option<Response>>) returns (m: SkuMap, requested: seq<string>)
    ensures (m, requested) == Paginate(map[], Some(first), answers)
  {
    m := map[];
    requested := [];
    var endpoint: Option<string> := Some(first);
    var i := 0;
    assert answers[i..] == answers;
    assert requested + Paginate(m, endpoint, answers[i..]).1 == Paginate(m, endpoint, answers[i..]).1;
    while endpoint.Some? && i < |answers|
      invariant 0 <= i <= |answers|
      invariant Paginate(m, endpoint, answers[i..]).0 == Paginate(map[], Some(first), answers).0
      invariant requested + Paginate(m, endpoint, answers[i..]).1 == Paginate(map[], Some(first), answers).1
    {
      var response := answers[i];
      PaginateUnfold(m, endpoint, answers, i);
      ghost var step := PageStep(m, endpoint, response);
      ghost var rest := Paginate(step.0, step.1, answers[i + 1..]).1;
      assert requested + ([endpoint.value] + rest) == (requested + [endpoint.value]) + rest;
      requested := requested + [endpoint.value];
      i := i + 1;
      if response.None? {
        endpoint := None;
      } else if response.value.status == 429 {
        // the same endpoint again
      } else if response.value.status != 200 {
        endpoint := None;
      } else {
        m := AddPage(m, response.value.products);
        endpoint := NextUrl(response.value.link, RelNext);
      }
    }
    assert Paginate(m, endpoint, answers[i..]) == (m, []);
    assert requested + [] == requested;
  }

  /** Every key of the SKU index is non-empty and normalised. */
  lemma {:induction false} PaginateNormalized(m: SkuMap, endpoint: Option<string>, answers: seq<Option<Response>>)
    requires NormalizedKeys(m)
    ensures NormalizedKeys(Paginate(m, endpoint, answers).0)
    decreases |answers|
  {
    if endpoint.Some? && answers != [] {
      var a := answers[0];
      if a.Some? && a.value.status == 200 {
        AddProductsNormalized(m, a.value.products);
        PaginateNormalized(AddProducts(m, a.value.products), NextUrl(a.value.link, RelNext), answers[1..]);
      } else {
        PaginateNormalized(m, if a.Some? && a.value.status == 429 then endpoint else None, answers[1..]);
      }
    }
  }

  // ---------------------------------------------------------------
  // actualizar_metafield
  // ---------------------------------------------------------------

  /** A metafield of a product as `metafields.json` lists it. */
  datatype Metafield = Metafield(id: int, namespace: string, key: string)

  /**
   * Shopify's answers to one `actualizar_metafield` call: the status of
   * the GET (None: no response) with the metafields listed, and the
   * status the PUT or the POST would get.
   */
  datatype MetaAnswers = MetaAnswers(getStatus: Option<int>, metafields: seq<Metafield>,
                                     putStatus: Option<int>, postStatus: Option<int>)

  /** `next(mf for mf in metafields if ...)`: the first metafield with this namespace and key. */
  function FindMetafield(mfs: seq<Metafield>, namespace: string, key: string): (r: Option<nat>)
    ensures r.Some? ==> r.value < |mfs| && mfs[r.value].namespace == namespace && mfs[r.value].key == key
    ensures forall i :: 0 <= i < |mfs| && (r.None? || i < r.value) ==> !(mfs[i].namespace == namespace && mfs[i].key == key)
  {
    if mfs == [] then None
    else if mfs[0].namespace == namespace && mfs[0].key == key then Some(0)
    else
      var rest := FindMetafield(mfs[1..], namespace, key);
      if rest.None? then None else Some(rest.value + 1)
  }

  /**
   * `actualizar_metafield`: updates the metafield with this namespace and
   * key when the product has one (success is status 200), otherwise
   * creates it (success is status 201); a failed listing fails.
   */
  function ActualizarMetafield(a: MetaAnswers, namespace: string, key: string): (r: bool)
    ensures r ==> a.getStatus == Some(200)
    ensures a.getStatus == Some(200) && (exists i :: 0 <= i < |a.metafields| && a.metafields[i].namespace == namespace && a.metafields[i].key == key)
      ==> (r <==> a.putStatus == Some(200))
    ensures a.getStatus == Some(200) && (forall i :: 0 <= i < |a.metafields| ==> !(a.metafields[i].namespace == namespace && a.metafields[i].key == key))
      ==> (r <==> a.postStatus == Some(201))
  {
    if a.getStatus != Some(200) then false
    else if FindMetafield(a.metafields, namespace, key).Some? then a.putStatus == Some(200)
    else a.postStatus == Some(201)
  }

  // ---------------------------------------------------------------
  // extraer_contenido_html_completo
  // ---------------------------------------------------------------

  /**
   * The accordion's header element and content element joined by a
   * newline; "" when either selector matches nothing (or the file cannot
   * be read, which leaves both None).
   */
  function ExtraerContenido(main: Option<string>, content: Option<string>): (r: string)
    ensures r != [] <==> main.Some? && content.Some?
  {
    if main.Some? && content.Some? then main.value + "\n" + content.value else ""
  }

  // ---------------------------------------------------------------
  // The two tables
  // ---------------------------------------------------------------

  /** A row of `informaciontablas` as the pending query returns it; NULL is None. */
  datatype InfoRow = InfoRow(id: nat, sku: string, carArchivo: Option<int>, infoArchivo: Option<int>,
                             carSubido: Option<int>, infoSubido: Option<int>)

  /** A row of `subirdesplegable`, keyed by ID. */
  datatype Desplegable = Desplegable(sku: string, carSubido: Option<int>, infoSubido: Option<int>)

  /** The two `..._Archivo_Subido` columns. */
  datatype Column = CarColumn | InfoColumn

  const TipoCaracteristicas: string := "caracteristicas"
  const TipoInformacion: string := "informacion"

  /** The column a `tipo` names; any other `tipo` names none. */
  function ColumnOf(tipo: string): (r: Option<Column>)
    ensures r == Some(CarColumn) <==> tipo == TipoCaracteristicas
    ensures r == Some(InfoColumn) <==> tipo == TipoInformacion
  {
    if tipo == TipoCaracteristicas then Some(CarColumn)
    else if tipo == TipoInformacion then Some(InfoColumn)
    else None
  }

  function SetInfo(r: InfoRow, c: Column, estado: int): InfoRow
  {
    match c
    case CarColumn => r.(carSubido := Some(estado))
    case InfoColumn => r.(infoSubido := Some(estado))
  }

  function SetDesplegable(r: Desplegable, c: Column, estado: int): Desplegable
  {
    match c
    case CarColumn => r.(carSubido := Some(estado))
    case InfoColumn => r.(infoSubido := Some(estado))
  }

  /** `UPDATE informaciontablas SET <column> = estado WHERE ID = id`. */
  function UpdateInfo(t: seq<InfoRow>, id: nat, c: Column, estado: int): (r: seq<InfoRow>)
    ensures |r| == |t|
    ensures forall i :: 0 <= i < |t| ==> r[i] == if t[i].id == id then SetInfo(t[i], c, estado) else t[i]
  {
    seq(|t|, i requires 0 <= i < |t| => if t[i].id == id then SetInfo(t[i], c, estado) else t[i])
  }

  /** The row an INSERT of (ID, SKU) creates: both flags take the table's `DEFAULT 0`. */
  function NewDesplegable(code: string): Desplegable
  {
    Desplegable(code, Some(0), Some(0))
  }

  /**
   * An UPDATE of the row with this ID, or an INSERT of (ID, SKU, column)
   * whose other column takes its default 0. Either way the named column
   * holds `estado` and the other column keeps what it had.
   */
  function UpsertDesplegable(d: map<nat, Desplegable>, id: nat, code: string, c: Column, estado: int): (r: map<nat, Desplegable>)
    ensures r.Keys == d.Keys + {id}
    ensures forall k :: k in d && k != id ==> r[k] == d[k]
    ensures c == CarColumn ==> r[id].carSubido == Some(estado)
    ensures c == InfoColumn ==> r[id].infoSubido == Some(estado)
    ensures id in d ==>
              && r[id].sku == d[id].sku
              && (c == CarColumn ==> r[id].infoSubido == d[id].infoSubido)
              && (c == InfoColumn ==> r[id].carSubido == d[id].carSubido)
    ensures id !in d ==>
              && r[id].sku == code
              && (c == CarColumn ==> r[id].infoSubido == Some(0))
              && (c == InfoColumn ==> r[id].carSubido == Some(0))
  {
    if id in d then d[id := SetDesplegable(d[id], c, estado)]
    else d[id := SetDesplegable(NewDesplegable(code), c, estado)]
  }

  /** The two tables the job writes. */
  datatype Tablas = Tablas(informacion: seq<InfoRow>, desplegable: map<nat, Desplegable>)

  /** The database connection: the tables behind it. */
  class Database {
    var tablas: Tablas

    constructor (tablas: Tablas)
      ensures this.tablas == tablas
    {
      this.tablas := tablas;
    }

    /**
     * `actualizar_subirdesplegable`: an unknown `tipo` changes nothing, and
     * neither does a write the database refuses (`committed` false), whose
     * error is logged and swallowed.
     */
    method ActualizarSubirdesplegable(id: nat, code: string, tipo: string, estado: int, committed: bool)
      modifies this
      ensures ColumnOf(tipo).None? || !committed ==> tablas == old(tablas)
      ensures ColumnOf(tipo).Some? && committed ==>
        tablas == old(tablas).(desplegable := UpsertDesplegable(old(tablas).desplegable, id, code, ColumnOf(tipo).value, estado))
    {
      var columna := ColumnOf(tipo);
      if columna.None? {
        return;
      }
      if !committed {
        return;
      }
      tablas := tablas.(desplegable := UpsertDesplegable(tablas.desplegable, id, code, columna.value, estado));
    }

    /** `actualizar_informaciontablas`: an unknown `tipo` or a refused write changes nothing. */
    method ActualizarInformaciontablas(id: nat, tipo: string, estado: int, committed: bool)
      modifies this
      ensures ColumnOf(tipo).None? || !committed ==> tablas == old(tablas)
      ensures ColumnOf(tipo).Some? && committed ==>
        tablas == old(tablas).(informacion := UpdateInfo(old(tablas).informacion, id, ColumnOf(tipo).value, estado))
    {
      var columna := ColumnOf(tipo);
      if columna.None? {
        return;
      }
      if !committed {
        return;
      }
      tablas := tablas.(informacion := UpdateInfo(tablas.informacion, id, columna.value, estado));
    }
  }

  // ---------------------------------------------------------------
  // procesar_sku
  // ---------------------------------------------------------------

  /** Python's `not v` for a nullable integer column. */
  predicate Falsy(v: Option<int>)
  {
    v.None? || v.value == 0
  }

  /** `tiene and not subido`: the file was converted and is not uploaded. */
  predicate NeedsUpload(archivo: Option<int>, subido: Option<int>)
  {
    archivo == Some(1) && Falsy(subido)
  }

  /** The WHERE clause of the pending query. */
  predicate Pending(r: InfoRow)
  {
    (r.carArchivo == Some(1) && (r.carSubido == Some(0) || r.carSubido.None?))
    || (r.infoArchivo == Some(1) && (r.infoSubido == Some(0) || r.infoSubido.None?))
  }

  /** The two accordions. */
  datatype Tipo = Caracteristicas | Informacion

  /** The metafield key of an accordion, in namespace "custom". */
  function MetafieldKey(t: Tipo): string
  {
    match t
    case Caracteristicas => "caracteristicas"
    case Informacion => "infoadicional"
  }

  const Namespace: string := "custom"

  /**
   * What the job finds for one accordion of one SKU: whether its HTML file
   * is a regular file, the elements the two selectors pick (None when
   * missing or unreadable), Shopify's answers for its metafield, and
   * whether the database commits the two flag writes that follow
   * (`subirdesplegable`, then `informaciontablas`).
   */
  datatype Accordion = Accordion(isFile: bool, main: Option<string>, content: Option<string>, server: MetaAnswers,
                                 desplegableOk: bool, informacionOk: bool)

  /** The `..._subido` value of one accordion: 1 exactly when its metafield is written. */
  function Subido(needs: bool, a: Accordion, key: string): (r: int)
    ensures r == 0 || r == 1
    ensures r == 1 <==> needs && a.isFile && a.main.Some? && a.content.Some? && ActualizarMetafield(a.server, Namespace, key)
  {
    if needs && a.isFile && ExtraerContenido(a.main, a.content) != [] && ActualizarMetafield(a.server, Namespace, key) then 1
    else 0
  }

  /** The SKU as written to the report and the paths: `sku.strip().upper()`. */
  function Code(sku: string): string
  {
    Upper(Strip(sku))
  }

  /** One line of the CSV report. */
  datatype Record = Record(id: nat, sku: string, carEncontradas: int, carSubidas: int, infoEncontrada: int, infoSubida: int)

  /**
   * `procesar_sku`: None when the row needs no upload or its SKU is not
   * in the index (the function returns False); otherwise the report line.
   */
  function RecordOf(row: InfoRow, m: SkuMap, acc: (string, Tipo) -> Accordion): (r: Option<Record>)
    ensures r.Some? <==>
      (NeedsUpload(row.carArchivo, row.carSubido) || NeedsUpload(row.infoArchivo, row.infoSubido))
      && Found(ObtenerProductoPorSku(row.sku, m))
    ensures r.Some? ==> r.value.id == row.id && r.value.sku == Code(row.sku)
  {
    var needsCar := NeedsUpload(row.carArchivo, row.carSubido);
    var needsInfo := NeedsUpload(row.infoArchivo, row.infoSubido);
    if !(needsCar || needsInfo) then None
    else
      var code := Code(row.sku);
      LookupKeyOfCode(row.sku);
      if !Found(ObtenerProductoPorSku(code, m)) then None
      else
        Some(Record(row.id, code,
                    if row.carArchivo == Some(1) then 1 else 0,
                    Subido(needsCar, acc(code, Caracteristicas), MetafieldKey(Caracteristicas)),
                    if row.infoArchivo == Some(1) then 1 else 0,
                    Subido(needsInfo, acc(code, Informacion), MetafieldKey(Informacion))))
  }

  /**
   * The report line of a processed row: found means the file flag is 1,
   * uploaded means the row needed the upload and the metafield write
   * went through.
   */
  lemma RecordOfFlags(row: InfoRow, m: SkuMap, acc: (string, Tipo) -> Accordion)
    ensures var r := RecordOf(row, m, acc);
      (r.Some? ==>
      && (r.value.carEncontradas == 1 <==> row.carArchivo == Some(1))
      && (r.value.infoEncontrada == 1 <==> row.infoArchivo == Some(1))
      && (r.value.carEncontradas == 0 || r.value.carEncontradas == 1)
      && (r.value.infoEncontrada == 0 || r.value.infoEncontrada == 1))
    ensures var r := RecordOf(row, m, acc);
      (r.Some? ==>
      && (r.value.carSubidas == 1 <==>
            NeedsUpload(row.carArchivo, row.carSubido)
            && ActualizarWrites(acc(Code(row.sku), Caracteristicas), MetafieldKey(Caracteristicas)))
      && (r.value.infoSubida == 1 <==>
            NeedsUpload(row.infoArchivo, row.infoSubido)
            && ActualizarWrites(acc(Code(row.sku), Informacion), MetafieldKey(Informacion)))
      && (r.value.carSubidas == 0 || r.value.carSubidas == 1)
      && (r.value.infoSubida == 0 || r.value.infoSubida == 1))
  {
  }

  /** The accordion's file is there, both elements are found, and its metafield is written. */
  predicate ActualizarWrites(a: Accordion, key: string)
  {
    a.isFile && a.main.Some? && a.content.Some? && ActualizarMetafield(a.server, Namespace, key)
  }

  /** The pending query selects exactly the rows `procesar_sku` has something to upload for. */
  lemma PendingIffNeedsUpload(r: InfoRow)
    ensures Pending(r) <==> NeedsUpload(r.carArchivo, r.carSubido) || NeedsUpload(r.infoArchivo, r.infoSubido)
  {
  }

  /** The `tipo` argument `procesar_sku` passes for an accordion, and the column it names. */
  function TipoName(t: Tipo): (r: string)
    ensures ColumnOf(r).Some?
  {
    match t
    case Caracteristicas => TipoCaracteristicas
    case Informacion => TipoInformacion
  }

  /**
   * The tables after the two flag writes of one accordion, when `write` (its
   * metafield went through): each table changes only if the database
   * commits that write.
   */
  function WriteFlag(t: Tablas, id: nat, code: string, c: Column, write: bool, a: Accordion): Tablas
  {
    Tablas(if write && a.informacionOk then UpdateInfo(t.informacion, id, c, 1) else t.informacion,
           if write && a.desplegableOk then UpsertDesplegable(t.desplegable, id, code, c, 1) else t.desplegable)
  }

  /** Both tables after `procesar_sku` wrote the uploads of `rec` for `row`, each write committed as `acc` says. */
  function Apply(t: Tablas, row: InfoRow, rec: Option<Record>, acc: (string, Tipo) -> Accordion): Tablas
  {
    if rec.None? then t
    else
      var code := Code(row.sku);
      var t1 := WriteFlag(t, row.id, code, CarColumn, rec.value.carSubidas == 1, acc(code, Caracteristicas));
      WriteFlag(t1, row.id, code, InfoColumn, rec.value.infoSubida == 1, acc(code, Informacion))
  }

  /**
   * One accordion of `procesar_sku`: when it needs the upload, its file is
   * there and has content, and the metafield is written, the two flag
   * writes follow and the accordion counts as uploaded.
   */
  method SubirAcordeon(db: Database, id: nat, code: string, t: Tipo, needs: bool, a: Accordion) returns (subido: int)
    modifies db
    ensures subido == Subido(needs, a, MetafieldKey(t))
    ensures db.tablas == WriteFlag(old(db.tablas), id, code, ColumnOf(TipoName(t)).value, subido == 1, a)
  {
    subido := 0;
    if needs {
      if a.isFile {
        var contenido := ExtraerContenido(a.main, a.content);
        if contenido != [] {
          var success := ActualizarMetafield(a.server, Namespace, MetafieldKey(t));
          if success {
            db.ActualizarSubirdesplegable(id, code, TipoName(t), 1, a.desplegableOk);
            db.ActualizarInformaciontablas(id, TipoName(t), 1, a.informacionOk);
            subido := 1;
          }
        }
      }
    }
  }

  /** `procesar_sku` on one pending row. */
  method ProcesarSku(db: Database, row: InfoRow, m: SkuMap, acc: (string, Tipo) -> Accordion)
    returns (ok: bool, rec: Option<Record>)
    modifies db
    ensures rec == RecordOf(row, m, acc) && ok == rec.Some?
    ensures db.tablas == Apply(old(db.tablas), row, rec, acc)
  {
    var needsCar := NeedsUpload(row.carArchivo, row.carSubido);
    var needsInfo := NeedsUpload(row.infoArchivo, row.infoSubido);
    if !(needsCar || needsInfo) {
      return false, None;
    }
    var code := Code(row.sku);
    var productId := ObtenerProductoPorSku(code, m);
    LookupKeyOfCode(row.sku);
    if !Found(productId) {
      return false, None;
    }
    var carSubido := SubirAcordeon(db, row.id, code, Caracteristicas, needsCar, acc(code, Caracteristicas));
    var infoSubido := SubirAcordeon(db, row.id, code, Informacion, needsInfo, acc(code, Informacion));
    rec := Some(Record(row.id, code, if row.carArchivo == Some(1) then 1 else 0, carSubido,
                       if row.infoArchivo == Some(1) then 1 else 0, infoSubido));
    ok := true;
  }

  /**
   * A row's uploaded flag changes only for the processed ID, only to 1,
   * and only after the metafield of that accordion was written and the
   * database committed the write.
   */
  lemma FlagOnlyAfterWrite(t: Tablas, row: InfoRow, m: SkuMap, acc: (string, Tipo) -> Accordion, i: int)
    requires 0 <= i < |t.informacion|
    ensures var before := t.informacion;
      var after := Apply(t, row, RecordOf(row, m, acc), acc).informacion;
      && |after| == |before|
      && (before[i].id != row.id ==> after[i] == before[i])
      && (after[i].carSubido != before[i].carSubido ==>
            after[i].carSubido == Some(1)
            && ActualizarWrites(acc(Code(row.sku), Caracteristicas), MetafieldKey(Caracteristicas))
            && acc(Code(row.sku), Caracteristicas).informacionOk)
      && (after[i].infoSubido != before[i].infoSubido ==>
            after[i].infoSubido == Some(1)
            && ActualizarWrites(acc(Code(row.sku), Informacion), MetafieldKey(Informacion))
            && acc(Code(row.sku), Informacion).informacionOk)
  {
    var rec := RecordOf(row, m, acc);
    RecordOfFlags(row, m, acc);
    if rec.Some? {
      var code := Code(row.sku);
      var t1 := WriteFlag(t, row.id, code, CarColumn, rec.value.carSubidas == 1, acc(code, Caracteristicas));
      assert |t1.informacion| == |t.informacion|;
      assert t1.informacion[i].infoSubido == t.informacion[i].infoSubido;
    }
  }

  /**
   * A write the database refuses leaves the flag as it was although the
   * report line says uploaded, so the row stays pending for the next run.
   */
  lemma RefusedWriteStaysPending(t: Tablas, row: InfoRow, m: SkuMap, acc: (string, Tipo) -> Accordion, i: int)
    requires 0 <= i < |t.informacion| && t.informacion[i] == row
    requires !acc(Code(row.sku), Caracteristicas).informacionOk && !acc(Code(row.sku), Informacion).informacionOk
    requires Pending(row)
    ensures Pending(Apply(t, row, RecordOf(row, m, acc), acc).informacion[i])
  {
    var rec := RecordOf(row, m, acc);
    if rec.Some? {
      var code := Code(row.sku);
      var t1 := WriteFlag(t, row.id, code, CarColumn, rec.value.carSubidas == 1, acc(code, Caracteristicas));
      assert t1 == t.(desplegable := t1.desplegable);
    }
  }

  // ---------------------------------------------------------------
  // main
  // ---------------------------------------------------------------

  /** The pending rows, in table order. */
  function Pendientes(t: seq<InfoRow>): (r: seq<InfoRow>)
    ensures forall x :: x in r <==> x in t && Pending(x)
  {
    if t == [] then []
    else
      var rest := Pendientes(t[..|t| - 1]);
      var last := t[|t| - 1];
      assert forall x :: x in t <==> x in t[..|t| - 1] || x == last;
      if Pending(last) then rest + [last] else rest
  }

  /** What one `procesar_sku` call adds to the report: its line, when it has one. */
  function RecordStep(m: SkuMap, acc: (string, Tipo) -> Accordion): (seq<Record>, InfoRow) -> seq<Record>
  {
    (prev: seq<Record>, row: InfoRow) =>
      var rec := RecordOf(row, m, acc);
      if rec.Some? then prev + [rec.value] else prev
  }

  /** What one `procesar_sku` call does to the tables. */
  function TablaStep(m: SkuMap, acc: (string, Tipo) -> Accordion): (Tablas, InfoRow) -> Tablas
  {
    (t: Tablas, row: InfoRow) => Apply(t, row, RecordOf(row, m, acc), acc)
  }

  /** The report lines of the first `n` rows, in order. */
  function Records(rows: seq<InfoRow>, n: nat, m: SkuMap, acc: (string, Tipo) -> Accordion): seq<Record>
    requires n <= |rows|
  {
    FoldLeft(rows, n, [], RecordStep(m, acc))
  }

  /** The tables after `procesar_sku` ran on the first `n` rows. */
  function TablasAll(t: Tablas, rows: seq<InfoRow>, n: nat, m: SkuMap, acc: (string, Tipo) -> Accordion): Tablas
    requires n <= |rows|
  {
    FoldLeft(rows, n, t, TablaStep(m, acc))
  }

  /** At most one report line per row. */
  lemma {:induction false} RecordsBounded(rows: seq<InfoRow>, n: nat, m: SkuMap, acc: (string, Tipo) -> Accordion)
    requires n <= |rows|
    ensures |Records(rows, n, m, acc)| <= n
  {
    if n > 0 {
      RecordsBounded(rows, n - 1, m, acc);
      var prev := Records(rows, n - 1, m, acc);
      assert Records(rows, n, m, acc) == RecordStep(m, acc)(prev, rows[n - 1]);
    }
  }

  /** The summary of the TXT report. */
  datatype Summary = Summary(total: nat, carEncontradas: nat, carSubidas: nat, infoEncontrada: nat, infoSubida: nat)

  /** How many records satisfy `p`. */
  function Count(rs: seq<Record>, p: Record -> bool): (n: nat)
    ensures n <= |rs|
  {
    if rs == [] then 0 else Count(rs[..|rs| - 1], p) + (if p(rs[|rs| - 1]) then 1 else 0)
  }

  function SummaryOf(rs: seq<Record>): Summary
  {
    Summary(|rs|,
            Count(rs, (r: Record) => r.carEncontradas == 1), Count(rs, (r: Record) => r.carSubidas == 1),
            Count(rs, (r: Record) => r.infoEncontrada == 1), Count(rs, (r: Record) => r.infoSubida == 1))
  }

  /** A property implied by another is counted at least as often. */
  lemma {:induction false} CountMonotone(rs: seq<Record>, p: Record -> bool, q: Record -> bool)
    requires forall r :: r in rs && p(r) ==> q(r)
    ensures Count(rs, p) <= Count(rs, q)
  {
    if rs != [] {
      CountMonotone(rs[..|rs| - 1], p, q);
    }
  }

  /** Every report line says uploaded only where it says found. */
  lemma {:induction false} RecordsUploadedWereFound(rows: seq<InfoRow>, n: nat, m: SkuMap, acc: (string, Tipo) -> Accordion)
    requires n <= |rows|
    ensures forall r :: r in Records(rows, n, m, acc) ==>
      (r.carSubidas == 1 ==> r.carEncontradas == 1) && (r.infoSubida == 1 ==> r.infoEncontrada == 1)
  {
    if n > 0 {
      RecordsUploadedWereFound(rows, n - 1, m, acc);
      RecordOfFlags(rows[n - 1], m, acc);
      var prev := Records(rows, n - 1, m, acc);
      var rec := RecordOf(rows[n - 1], m, acc);
      assert Records(rows, n, m, acc) == RecordStep(m, acc)(prev, rows[n - 1]);
      assert RecordStep(m, acc)(prev, rows[n - 1]) == if rec.Some? then prev + [rec.value] else prev;
    }
  }

  /** In the summary, uploaded ≤ found ≤ processed ≤ pending for both accordions. */
  lemma SummaryOrdered(rows: seq<InfoRow>, m: SkuMap, acc: (string, Tipo) -> Accordion)
    ensures var s := SummaryOf(Records(rows, |rows|, m, acc));
      && s.carSubidas <= s.carEncontradas <= s.total <= |rows|
      && s.infoSubida <= s.infoEncontrada <= s.total
  {
    var rs := Records(rows, |rows|, m, acc);
    RecordsBounded(rows, |rows|, m, acc);
    RecordsUploadedWereFound(rows, |rows|, m, acc);
    CountMonotone(rs, (r: Record) => r.carSubidas == 1, (r: Record) => r.carEncontradas == 1);
    CountMonotone(rs, (r: Record) => r.infoSubida == 1, (r: Record) => r.infoEncontrada == 1);
  }

  /** The pool of `procesar_sku` calls over the pending rows, collected in row order. */
  method ProcesarTodos(db: Database, pending: seq<InfoRow>, m: SkuMap, acc: (string, Tipo) -> Accordion)
    returns (records: seq<Record>)
    modifies db
    ensures records == Records(pending, |pending|, m, acc)
    ensures db.tablas == TablasAll(old(db.tablas), pending, |pending|, m, acc)
  {
    records := [];
    ghost var t0 := db.tablas;
    var k := 0;
    while k < |pending|
      invariant 0 <= k <= |pending|
      invariant records == Records(pending, k, m, acc)
      invariant db.tablas == TablasAll(t0, pending, k, m, acc)
    {
      ghost var before := db.tablas;
      records := ProcesarSiguiente(db, pending, k, m, acc, records);
      ghost var after := db.tablas;
      assert after == TablaStep(m, acc)(before, pending[k]);
      FoldLeftNext(pending, k, [], RecordStep(m, acc));
      FoldLeftNext(pending, k, t0, TablaStep(m, acc));
      k := k + 1;
    }
  }

  /** One task of the pool: `procesar_sku` on row `k`, its record appended to those of the earlier rows. */
  method ProcesarSiguiente(db: Database, pending: seq<InfoRow>, k: nat, m: SkuMap, acc: (string, Tipo) -> Accordion,
                           records: seq<Record>)
    returns (records': seq<Record>)
    requires k < |pending|
    modifies db
    ensures records' == RecordStep(m, acc)(records, pending[k])
    ensures db.tablas == TablaStep(m, acc)(old(db.tablas), pending[k])
  {
    var ok, rec := ProcesarSku(db, pending[k], m, acc);
    records' := records;
    if rec.Some? {
      records' := records + [rec.value];
    }
    assert RecordStep(m, acc)(records, pending[k]) == if rec.Some? then records + [rec.value] else records;
  }

  /**
   * `main`: the pending rows (none when the query fails), the SKU index,
   * `procesar_sku` on every pending row, and the summary; no summary when
   * nothing is pending or the index is empty.
   */
  method SubirDesplegables(db: Database, queryOk: bool, first: string, answers: seq<Option<Response>>,
                           acc: (string, Tipo) -> Accordion)
    returns (summary: Option<Summary>, records: seq<Record>)
    modifies db
    ensures var pending := if queryOk then Pendientes(old(db.tablas).informacion) else [];
      var m := Paginate(map[], Some(first), answers).0;
      && (summary.Some? <==> pending != [] && m != map[])
      && (summary.Some? ==>
            && records == Records(pending, |pending|, m, acc)
            && summary.value == SummaryOf(records)
            && db.tablas == TablasAll(old(db.tablas), pending, |pending|, m, acc))
      && (summary.None? ==> records == [] && db.tablas == old(db.tablas))
  {
    var pending := if queryOk then Pendientes(db.tablas.informacion) else [];
    records := [];
    if |pending| == 0 {
      return None, records;
    }
    var m, requested := ObtenerTodosSkus(first, answers);
    if |m| == 0 {
      return None, records;
    }
    records := ProcesarTodos(db, pending, m, acc);
    summary := Some(SummaryOf(records));
  }
}
