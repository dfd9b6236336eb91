/**
 * The product-creation script: the products of the "new" feed folder are
 * read, every one whose SKU is not yet in the shop is completed with
 * defaults for its required fields, given a specification list and a tag
 * list, and sent to the shop. The shop's answers, the price computation
 * and the description template are oracles; the image partition is the one
 * of `Images`.
 */
module CrearProductos {
  import opened Common
  import opened Tags
  import opened FileSystem
  import NoExistentes

  // ---------------------------------------------------------------
  // read_products_from_directory and sync_products
  // ---------------------------------------------------------------

  /**
   * What one listed entry adds: nothing unless its name ends in ".json"; a
   * file whose text the JSON parser rejects adds nothing; a decoded value
   * is added as `list.extend` adds it (a dict adds its keys, a string its
   * characters). Opening a directory, bytes that are not UTF-8 (the
   * UnicodeDecodeError is not the JSONDecodeError the handler catches) and
   * extending with a number raise. `utf8` says, per file name, whether the
   * file's bytes decode as UTF-8.
   */
  function EntryProducts(name: string, e: FileEntry, utf8: string -> bool): (r: Result<seq<Json>>)
    ensures !EndsWith(name, ".json") ==> r == Ok([])
    ensures EndsWith(name, ".json") && e.isFile && utf8(name) && e.content.None? ==> r == Ok([])
    ensures EndsWith(name, ".json") && e.isFile && utf8(name) && e.content.Some? ==> r == Iterated(e.content.value)
    ensures EndsWith(name, ".json") && (!e.isFile || !utf8(name)) ==> r.Err?
  {
    if !EndsWith(name, ".json") then Ok([])
    else if !e.isFile then Err("IsADirectoryError")
    else if !utf8(name) then Err("UnicodeDecodeError")
    else if e.content.None? then Ok([])
    else Iterated(e.content.value)
  }

  /** The concatenation of what the listed entries add, in listing order. */
  function ProductsOf(d: Dir, utf8: string -> bool): Result<seq<Json>>
  {
    if d == [] then Ok([])
    else
      var rest := ProductsOf(d[..|d| - 1], utf8);
      var last := d[|d| - 1];
      if rest.Err? then rest
      else
        match EntryProducts(last.0, last.1, utf8)
        case Err(e) => Err(e)
        case Ok(ps) => Ok(rest.value + ps)
  }

  /** `read_products_from_directory(directory)`; a missing directory gives []. */
  function ReadProducts(dir: Option<Dir>, utf8: string -> bool): Result<seq<Json>>
  {
    if dir.None? then Ok([]) else ProductsOf(dir.value, utf8)
  }

  /**
   * The list is read exactly when every ".json" entry can be opened and
   * its decoded value (if any) extended with; then it holds every product
   * of every decoded ".json" list, and nothing that is not from one.
   */
  lemma {:induction false} ProductsOfMeaning(d: Dir, utf8: string -> bool)
    ensures ProductsOf(d, utf8).Ok? <==> forall e :: e in d ==> EntryProducts(e.0, e.1, utf8).Ok?
    ensures ProductsOf(d, utf8).Ok? ==>
      (forall x :: x in ProductsOf(d, utf8).value ==> exists e :: e in d && x in EntryProducts(e.0, e.1, utf8).value) &&
      (forall e, x :: e in d && EntryProducts(e.0, e.1, utf8).Ok? && x in EntryProducts(e.0, e.1, utf8).value ==> x in ProductsOf(d, utf8).value)
  {
    if d != [] {
      var init, last := d[..|d| - 1], d[|d| - 1];
      ProductsOfMeaning(init, utf8);
      assert forall e :: e in d <==> e == last || e in init;
    }
  }

  /** A UTF-8 file that the JSON parser rejects is skipped: the other files are still read. */
  lemma UnparsableSkipped(d: Dir, name: string, e: FileEntry, utf8: string -> bool)
    requires e.isFile && utf8(name) && e.content.None?
    ensures ProductsOf(d + [(name, e)], utf8) == ProductsOf(d, utf8)
  {
    assert (d + [(name, e)])[..|d|] == d;
    if ProductsOf(d, utf8).Ok? {
      assert ProductsOf(d, utf8).value + [] == ProductsOf(d, utf8).value;
    }
  }

  /** A ".json" file whose bytes are not UTF-8 ends the read, whatever the other files hold. */
  lemma NonUtf8EndsRead(d: Dir, name: string, e: FileEntry, utf8: string -> bool)
    requires EndsWith(name, ".json") && e.isFile && !utf8(name) && ProductsOf(d, utf8).Ok?
    ensures ProductsOf(d + [(name, e)], utf8) == Err("UnicodeDecodeError")
  {
    assert (d + [(name, e)])[..|d|] == d;
  }

  /** The reading loop: the decoded lists are extended into one list. */
  method ReadProductsFromDirectory(dir: Option<Dir>, utf8: string -> bool) returns (r: Result<seq<Json>>)
    ensures r == ReadProducts(dir, utf8)
  {
    if dir.None? {
      return Ok([]);
    }
    var d := dir.value;
    var products: seq<Json> := [];
    var i := 0;
    while i < |d|
      invariant 0 <= i <= |d|
      invariant ProductsOf(d[..i], utf8) == Ok(products)
    {
      assert d[..i + 1][..i] == d[..i];
      var added := EntryProducts(d[i].0, d[i].1, utf8);
      if added.Err? {
        ReadStopsAt(d, i, utf8);
        return Err(added.error);
      }
      products := products + added.value;
      i := i + 1;
    }
    assert d[..i] == d;
    r := Ok(products);
  }

  /** Once an entry raises, the whole read raises with it. */
  lemma {:induction false} ReadStopsAt(d: Dir, i: int, utf8: string -> bool)
    requires 0 <= i < |d| && ProductsOf(d[..i], utf8).Ok? && EntryProducts(d[i].0, d[i].1, utf8).Err?
    ensures ProductsOf(d, utf8) == Err(EntryProducts(d[i].0, d[i].1, utf8).error)
    decreases |d|
  {
    if i == |d| - 1 {
      assert d[..|d| - 1] == d[..i];
    } else {
      assert d[..|d| - 1][..i] == d[..i];
      ReadStopsAt(d[..|d| - 1], i, utf8);
    }
  }

  /** `sync_products(json_products, shopify_products)`: nothing to update, every product to create. */
  function SyncProducts(jsonProducts: seq<Json>, shopProducts: seq<Json>): (r: (seq<Json>, seq<Json>))
    ensures r.0 == [] && r.1 == jsonProducts
  {
    ([], jsonProducts)
  }

  // ---------------------------------------------------------------
  // Required-key defaulting
  // ---------------------------------------------------------------

  const RequiredKeys: seq<string> := ["nombre", "descripcion_corta", "marca", "modelo", "numParte", "especificaciones", "clave"]

  /** The value a missing or falsy required key gets: "Sin " and the capitalised key, "" for `especificaciones`. */
  function DefaultFor(key: string): (r: Json)
    ensures r.JStr?
    ensures Truthy(r) <==> key != "especificaciones"
  {
    if key == "especificaciones" then JStr("") else JStr("Sin " + Capitalize(key))
  }

  /** What a required key holds afterwards: its own value when truthy, else its default. */
  function Required(fields: seq<(string, Json)>, key: string): Json
  {
    if Truthy(GetOr(fields, key, JNull)) then GetOr(fields, key, JNull) else DefaultFor(key)
  }

  /** The dict after the keys of `keys` have been defaulted in turn. */
  function FillKeys(fields: seq<(string, Json)>, keys: seq<string>): seq<(string, Json)>
  {
    if keys == [] then fields
    else
      var d := FillKeys(fields, keys[..|keys| - 1]);
      var key := keys[|keys| - 1];
      if Truthy(GetOr(d, key, JNull)) then d else Put(d, key, DefaultFor(key))
  }

  function WithRequired(fields: seq<(string, Json)>): seq<(string, Json)>
  {
    FillKeys(fields, RequiredKeys)
  }

  predicate DistinctStrings(keys: seq<string>)
  {
    forall i, j :: 0 <= i < j < |keys| ==> keys[i] != keys[j]
  }

  /**
   * Each listed key holds its own truthy value or its default, and every
   * other key is untouched.
   */
  lemma {:induction false} FillKeysMeaning(fields: seq<(string, Json)>, keys: seq<string>, k: string)
    requires DistinctStrings(keys)
    ensures Get(FillKeys(fields, keys), k) == if k in keys then Some(Required(fields, k)) else Get(fields, k)
  {
    if keys != [] {
      var init, key := keys[..|keys| - 1], keys[|keys| - 1];
      assert DistinctStrings(init);
      FillKeysMeaning(fields, init, k);
      FillKeysMeaning(fields, init, key);
      assert key !in init;
      assert k in keys <==> k == key || k in init;
    }
  }

  /** After defaulting, every required key but `especificaciones` is truthy, and no other key changes. */
  lemma WithRequiredMeaning(fields: seq<(string, Json)>)
    ensures forall k :: k in RequiredKeys ==> Get(WithRequired(fields), k) == Some(Required(fields, k))
    ensures forall k :: k in RequiredKeys && k != "especificaciones" ==> Truthy(GetOr(WithRequired(fields), k, JNull))
    ensures forall k :: k !in RequiredKeys ==> Get(WithRequired(fields), k) == Get(fields, k)
  {
    assert DistinctStrings(RequiredKeys);
    forall k ensures Get(WithRequired(fields), k) == if k in RequiredKeys then Some(Required(fields, k)) else Get(fields, k) {
      FillKeysMeaning(fields, RequiredKeys, k);
    }
  }

  /** The defaulting loop writes into the dict in place. */
  method FillRequired(fields: seq<(string, Json)>) returns (filled: seq<(string, Json)>)
    ensures filled == WithRequired(fields)
  {
    filled := fields;
    var i := 0;
    while i < |RequiredKeys|
      invariant 0 <= i <= |RequiredKeys|
      invariant filled == FillKeys(fields, RequiredKeys[..i])
    {
      var key := RequiredKeys[i];
      assert RequiredKeys[..i + 1][..i] == RequiredKeys[..i];
      if !HasKey(filled, key) || !Truthy(GetOr(filled, key, JNull)) {
        filled := Put(filled, key, DefaultFor(key));
      }
      i := i + 1;
    }
    assert RequiredKeys[..i] == RequiredKeys;
  }

  // ---------------------------------------------------------------
  // especificaciones
  // ---------------------------------------------------------------

  /** `{"tipo": "Especificación", "valor": s}`. */
  function SpecEntry(s: string): Json
  {
    JObj([("tipo", JStr("Especificación")), ("valor", JStr(s))])
  }

  /** A list is kept, a string becomes a one-entry list, anything else the empty list. */
  function NormalizedSpecs(v: Json): (r: Json)
    ensures r.JList?
    ensures v.JList? ==> r == v
    ensures v.JStr? ==> r.items == [SpecEntry(v.s)]
    ensures !v.JList? && !v.JStr? ==> r.items == []
  {
    if v.JList? then v
    else if v.JStr? then JList([SpecEntry(v.s)])
    else JList([])
  }

  /** The `especificaciones` a product is created with. */
  function ProductSpecs(fields: seq<(string, Json)>): Json
  {
    NormalizedSpecs(GetOr(WithRequired(fields), "especificaciones", JNull))
  }

  /**
   * The specification list is always a list: a truthy list is kept, a
   * truthy string is wrapped, and a missing or falsy value (defaulted to
   * "") becomes a list of one entry with an empty `valor`.
   */
  lemma ProductSpecsMeaning(fields: seq<(string, Json)>)
    ensures ProductSpecs(fields).JList?
    ensures var v := GetOr(fields, "especificaciones", JNull);
      && (Truthy(v) && v.JList? ==> ProductSpecs(fields) == v)
      && (Truthy(v) && v.JStr? ==> ProductSpecs(fields).items == [SpecEntry(v.s)])
      && (!Truthy(v) ==> ProductSpecs(fields).items == [SpecEntry("")])
  {
    WithRequiredMeaning(fields);
    assert "especificaciones" in RequiredKeys;
  }

  // ---------------------------------------------------------------
  // Tags
  // ---------------------------------------------------------------

  /** The promotion tags of the creation script. */
  const CreationPromoTags: seq<string> := ["Promoción", "Oferta", "Descuentos"]

  /** A candidate as `filter(None, ...)` and `tag.strip()` see it: falsy is dropped, a non-string raises. */
  function RawTag(v: Json): (r: Result<Option<string>>)
    ensures r == Ok(None) <==> !Truthy(v)
    ensures r.Err? <==> Truthy(v) && !v.JStr?
    ensures r.Ok? && r.value.Some? ==> v == JStr(r.value.value)
  {
    if !Truthy(v) then Ok(None)
    else if v.JStr? then Ok(Some(v.s))
    else Err("AttributeError")
  }

  /** The field candidates, read from the dict after defaulting. */
  function TagCandidates(d: seq<(string, Json)>): seq<Result<Option<string>>>
  {
    [RawTag(GetOr(d, "numParte", JNull)), RawTag(GetOr(d, "marca", JNull)), RawTag(GetOr(d, "categoria", JNull)),
     RawTag(GetOr(d, "subcategoria", JNull)), RawTag(GetOr(d, "modelo", JNull)), RawTag(GetOr(d, "upc", JNull)),
     RawTag(GetOr(d, "ean", JNull))]
  }

  /**
   * The tag list sent: the field values, then the three promotion tags
   * while a promotion is active, sanitised, with the 'SinTag' default.
   */
  function ProductTags(d: seq<(string, Json)>, active: bool): (r: Result<seq<string>>)
    ensures r.Ok? <==> Collect(TagCandidates(d)).Ok?
    ensures r.Ok? ==> r.value != [] && forall t :: t in r.value ==> WellFormedTag(t)
  {
    match Collect(TagCandidates(d))
    case Err(e) => Err(e)
    case Ok(tags) =>
      var entries := SomeTags(tags + if active then CreationPromoTags else []);
      NoExistentes.SanitizedWellFormed(entries);
      Ok(OrDefault(Sanitized(entries)))
  }

  /** "Oferta" and "Descuentos" pass through sanitising untouched. */
  lemma CreationWordUnchanged(w: string)
    requires w in CreationPromoTags[1..]
    ensures PassesUnchanged(w)
  {
    assert forall i :: 0 <= i < |w| ==> IsAsciiLetter(w[i]);
    LetterWordKept(w);
  }

  /** The three promotion tags sanitise to "Promocin", "Oferta", "Descuentos". */
  lemma CreationPromoSanitized()
    ensures Sanitized(SomeTags(CreationPromoTags)) == ["Promocin"] + CreationPromoTags[1..]
  {
    forall k | 1 <= k < |CreationPromoTags| ensures PassesUnchanged(CreationPromoTags[k]) {
      CreationWordUnchanged(CreationPromoTags[k]);
    }
    TailAllUnchanged(CreationPromoTags);
    PromotionTagRewritten();
    HeadCleanedTailKept(CreationPromoTags);
  }

  /**
   * With an active promotion the list is the sanitised field tags followed
   * by "Promocin", "Oferta" and "Descuentos" ("Promoción" itself never
   * reaches the shop); without one it is the sanitised field tags, or
   * ['SinTag'].
   */
  lemma ProductTagsPromotion(d: seq<(string, Json)>, tags: seq<string>)
    requires Collect(TagCandidates(d)) == Ok(tags)
    ensures ProductTags(d, true) == Ok(Sanitized(SomeTags(tags)) + (["Promocin"] + CreationPromoTags[1..]))
    ensures ProductTags(d, false) == Ok(OrDefault(Sanitized(SomeTags(tags))))
    ensures "Promoción" !in ProductTags(d, true).value
  {
    assert SomeTags(tags + CreationPromoTags) == SomeTags(tags) + SomeTags(CreationPromoTags);
    SanitizedAppend(SomeTags(tags), SomeTags(CreationPromoTags));
    CreationPromoSanitized();
    assert tags + [] == tags;
    PromotionTagNotClean();
  }

  /**
   * Defaulting feeds the tags: part number, brand and model are truthy
   * after it, so each of them is always a tag candidate (or raises).
   */
  lemma DefaultedFieldsAreCandidates(fields: seq<(string, Json)>)
    ensures var c := TagCandidates(WithRequired(fields)); c[0] != Ok(None) && c[1] != Ok(None) && c[4] != Ok(None)
  {
    WithRequiredMeaning(fields);
    assert RequiredKeys[4] == "numParte" && RequiredKeys[2] == "marca" && RequiredKeys[3] == "modelo";
    TruthyFieldsAreCandidates(WithRequired(fields));
  }

  lemma TruthyFieldsAreCandidates(d: seq<(string, Json)>)
    requires Truthy(GetOr(d, "numParte", JNull)) && Truthy(GetOr(d, "marca", JNull)) && Truthy(GetOr(d, "modelo", JNull))
    ensures var c := TagCandidates(d); c[0] != Ok(None) && c[1] != Ok(None) && c[4] != Ok(None)
  {
  }

  // ---------------------------------------------------------------
  // crear_producto_sin_variantes and procesar_nuevos
  // ---------------------------------------------------------------

  /** What the calls around one creation answer, per SKU. */
  datatype Shop = Shop(
    computeOk: Json -> bool,  // the promotion dates parse, the price is computed and the template renders
    createOk: Json -> bool    // the create call answers with a product and its id
  )

  /** How one creation ends. */
  datatype Creation =
    | AlreadyExists                                      // 'Ya Existe': reported, no create call
    | Crashed                                            // an exception caught by the outer handler: in no report
    | CreateFailed                                       // the create call fails: reported
    | Created(specs: Json, tags: seq<string>)            // created with these specifications and tags
    | CreatedUnlisted                                    // created, then `os.path.join` raises on a SKU that is not a string: in no report

  /** The SKU the script uses: `clave`, read before defaulting. */
  function Sku(fields: seq<(string, Json)>): Json
  {
    GetOr(fields, "clave", JStr("Sin SKU"))
  }

  /**
   * The 'Ya Existe' row can be built: `precio` (0 when absent) is a number
   * to multiply by 1.16, the stock values sum, and the end date of the
   * first promotion reads.
   */
  predicate ExistingRowOk(fields: seq<(string, Json)>)
  {
    && NumericValue(GetOr(fields, "precio", JInt(0))).Some?
    && NoExistentes.StockSum(GetOr(fields, "existencia", JObj([]))).Ok?
    && NoExistentes.VigenciaReadable(GetOr(fields, "promociones", JNull))
  }

  /**
   * `crear_producto_sin_variantes` for a dict. `Err` is an exception that
   * ends the whole run: an unhashable SKU looked up in the set of existing
   * SKUs, or a 'Ya Existe' row that cannot be built, both outside the
   * `try`. `active` is whether the first promotion's window holds today.
   */
  function CreateProduct(fields: seq<(string, Json)>, existing: set<Json>, active: bool, shop: Shop): (r: Result<Creation>)
    ensures r.Err? <==> !Hashable(Sku(fields)) || (Sku(fields) in existing && !ExistingRowOk(fields))
    ensures r == Ok(AlreadyExists) <==> Hashable(Sku(fields)) && Sku(fields) in existing && ExistingRowOk(fields)
    ensures r.Ok? && r.value.Created? ==>
      && Sku(fields).JStr? && Sku(fields) !in existing
      && r.value.specs == ProductSpecs(fields)
      && ProductTags(WithRequired(fields), active) == Ok(r.value.tags)
    ensures r == Ok(CreatedUnlisted) ==> !Sku(fields).JStr? && Sku(fields) !in existing && shop.createOk(Sku(fields))
    ensures Hashable(Sku(fields)) && Sku(fields) !in existing && !Sku(fields).JStr? ==>
      r == Ok(Crashed) || r == Ok(CreateFailed) || r == Ok(CreatedUnlisted)
  {
    var sku := Sku(fields);
    if !Hashable(sku) then Err("TypeError: unhashable type")
    else if sku in existing then
      if ExistingRowOk(fields) then Ok(AlreadyExists) else Err("exception building the 'Ya Existe' row")
    else if NoExistentes.StockSum(GetOr(fields, "existencia", JObj([]))).Err? || !shop.computeOk(sku) then Ok(Crashed)
    else
      var d := WithRequired(fields);
      match ProductTags(d, active)
      case Err(_) => Ok(Crashed)
      case Ok(tags) =>
        if !shop.createOk(sku) then Ok(CreateFailed)
        else if sku.JStr? then Ok(Created(ProductSpecs(fields), tags))
        else Ok(CreatedUnlisted)
  }

  /**
   * What `crear_producto_sin_variantes` appends to the two report lists:
   * an existing SKU and a failed create call go to the failures, a created
   * product to the created list, a caught exception to neither.
   */
  function Tally(creados: seq<Json>, fallidos: seq<Json>, sku: Json, outcome: Creation): (r: (seq<Json>, seq<Json>))
    ensures outcome.Created? ==> r == (creados + [sku], fallidos)
    ensures outcome == AlreadyExists || outcome == CreateFailed ==> r == (creados, fallidos + [sku])
    ensures outcome == Crashed || outcome == CreatedUnlisted ==> r == (creados, fallidos)
  {
    match outcome
    case AlreadyExists => (creados, fallidos + [sku])
    case CreateFailed => (creados, fallidos + [sku])
    case Created(_, _) => (creados + [sku], fallidos)
    case Crashed => (creados, fallidos)
    case CreatedUnlisted => (creados, fallidos)
  }

  /**
   * The reports after one more product: a product that is not a dict
   * raises on `.get`, as does an unhashable SKU; otherwise the outcome of
   * the create call is tallied.
   */
  function ReportStep(acc: (seq<Json>, seq<Json>), p: Json, existing: set<Json>, active: Json -> bool, shop: Shop)
    : (r: Result<(seq<Json>, seq<Json>)>)
    ensures r.Ok? ==> |r.value.0| + |r.value.1| <= |acc.0| + |acc.1| + 1
  {
    if !p.JObj? then Err("AttributeError")
    else
      match CreateProduct(p.fields, existing, active(p), shop)
      case Err(e) => Err(e)
      case Ok(outcome) => Ok(Tally(acc.0, acc.1, Sku(p.fields), outcome))
  }

  /** `ReportStep` as a value, for the fold. */
  function Step(existing: set<Json>, active: Json -> bool, shop: Shop): ((seq<Json>, seq<Json>), Json) -> Result<(seq<Json>, seq<Json>)>
  {
    (acc: (seq<Json>, seq<Json>), p: Json) => ReportStep(acc, p, existing, active, shop)
  }

  /** The first `n` steps of a loop that stops at the first error. */
  function FoldUntilErr<T, S>(xs: seq<T>, n: nat, init: S, step: (S, T) -> Result<S>): Result<S>
    requires n <= |xs|
  {
    if n == 0 then Ok(init)
    else
      var prev := FoldUntilErr(xs, n - 1, init, step);
      if prev.Err? then prev else step(prev.value, xs[n - 1])
  }

  /** One more step of the fold. */
  lemma FoldNext<T, S>(xs: seq<T>, n: nat, init: S, step: (S, T) -> Result<S>)
    requires n < |xs|
    ensures var prev := FoldUntilErr(xs, n, init, step);
      FoldUntilErr(xs, n + 1, init, step) == if prev.Err? then prev else step(prev.value, xs[n])
  {
  }

  /** Once the loop raised, later steps do not run. */
  lemma {:induction false} ErrSticks<T, S>(xs: seq<T>, i: nat, n: nat, init: S, step: (S, T) -> Result<S>)
    requires i < n <= |xs|
    requires FoldUntilErr(xs, i + 1, init, step).Err?
    ensures FoldUntilErr(xs, n, init, step) == FoldUntilErr(xs, i + 1, init, step)
    decreases n
  {
    if i + 1 < n {
      ErrSticks(xs, i, n - 1, init, step);
    }
  }

  /** The two reports after the first `n` products: SKUs created, and SKUs reported as existing or failing at the create call. */
  function Reports(products: seq<Json>, n: nat, existing: set<Json>, active: Json -> bool, shop: Shop): Result<(seq<Json>, seq<Json>)>
    requires n <= |products|
  {
    FoldUntilErr(products, n, ([], []), Step(existing, active, shop))
  }

  /** A step adds at most one SKU to the two reports. */
  ghost predicate GrowsByOne(step: ((seq<Json>, seq<Json>), Json) -> Result<(seq<Json>, seq<Json>)>)
  {
    forall acc, p :: step(acc, p).Ok? ==> |step(acc, p).value.0| + |step(acc, p).value.1| <= |acc.0| + |acc.1| + 1
  }

  /** A step adds to the created report only SKUs outside `existing`. */
  ghost predicate CreatesOnlyNew(step: ((seq<Json>, seq<Json>), Json) -> Result<(seq<Json>, seq<Json>)>, existing: set<Json>)
  {
    forall acc, p, x :: step(acc, p).Ok? && x in step(acc, p).value.0 ==> x in acc.0 || x !in existing
  }

  lemma {:induction false} FoldBounded(xs: seq<Json>, n: nat, step: ((seq<Json>, seq<Json>), Json) -> Result<(seq<Json>, seq<Json>)>)
    requires n <= |xs| && GrowsByOne(step)
    ensures var r := FoldUntilErr(xs, n, ([], []), step);
      r.Ok? ==> |r.value.0| + |r.value.1| <= n
  {
    if n > 0 {
      FoldBounded(xs, n - 1, step);
    }
  }

  lemma {:induction false} FoldCreatesOnlyNew(xs: seq<Json>, n: nat, existing: set<Json>,
                                             step: ((seq<Json>, seq<Json>), Json) -> Result<(seq<Json>, seq<Json>)>, s: Json)
    requires n <= |xs| && CreatesOnlyNew(step, existing) && s in existing
    requires FoldUntilErr(xs, n, ([], []), step).Ok?
    ensures s !in FoldUntilErr(xs, n, ([], []), step).value.0
  {
    if n > 0 {
      FoldCreatesOnlyNew(xs, n - 1, existing, step, s);
    }
  }

  lemma StepGrowsByOne(existing: set<Json>, active: Json -> bool, shop: Shop)
    ensures GrowsByOne(Step(existing, active, shop))
  {
    forall acc, p | Step(existing, active, shop)(acc, p).Ok?
      ensures |Step(existing, active, shop)(acc, p).value.0| + |Step(existing, active, shop)(acc, p).value.1| <= |acc.0| + |acc.1| + 1
    {
      assert Step(existing, active, shop)(acc, p) == ReportStep(acc, p, existing, active, shop);
    }
  }

  /** `crear_producto_sin_variantes` reports as created only SKUs that were not in the shop. */
  lemma StepCreatesOnlyNew(existing: set<Json>, active: Json -> bool, shop: Shop)
    ensures CreatesOnlyNew(Step(existing, active, shop), existing)
  {
    forall acc, p, x | Step(existing, active, shop)(acc, p).Ok? && x in Step(existing, active, shop)(acc, p).value.0
      ensures x in acc.0 || x !in existing
    {
      assert Step(existing, active, shop)(acc, p) == ReportStep(acc, p, existing, active, shop);
    }
  }

  /** The reports never list more SKUs than products were read. */
  lemma ReportsBounded(products: seq<Json>, n: nat, existing: set<Json>, active: Json -> bool, shop: Shop)
    requires n <= |products|
    ensures var r := Reports(products, n, existing, active, shop);
      r.Ok? ==> |r.value.0| + |r.value.1| <= n
  {
    StepGrowsByOne(existing, active, shop);
    FoldBounded(products, n, Step(existing, active, shop));
  }

  /** The body of the loop of `procesar_nuevos` for one product. */
  method ProcessOne(creados: seq<Json>, fallidos: seq<Json>, p: Json, existing: set<Json>, active: Json -> bool, shop: Shop)
    returns (r: Result<(seq<Json>, seq<Json>)>)
    ensures r == ReportStep((creados, fallidos), p, existing, active, shop)
  {
    if !p.JObj? {
      return Err("AttributeError");
    }
    var outcome := CreateProduct(p.fields, existing, active(p), shop);
    if outcome.Err? {
      return Err(outcome.error);
    }
    r := Ok(Tally(creados, fallidos, Sku(p.fields), outcome.value));
  }

  /**
   * `procesar_nuevos`: the loop over the products to create. A product
   * that is not a dict, an unhashable SKU, or a 'Ya Existe' row that
   * cannot be built ends the run.
   */
  method ProcessNew(products: seq<Json>, existing: set<Json>, active: Json -> bool, shop: Shop)
    returns (r: Result<(seq<Json>, seq<Json>)>, total: nat)
    ensures r == Reports(products, |products|, existing, active, shop)
    ensures total == |products|
  {
    var creados: seq<Json> := [];
    var fallidos: seq<Json> := [];
    var i := 0;
    total := |products|;
    while i < |products|
      invariant 0 <= i <= |products|
      invariant Reports(products, i, existing, active, shop) == Ok((creados, fallidos))
    {
      var step := ProcessOne(creados, fallidos, products[i], existing, active, shop);
      FoldNext(products, i, ([], []), Step(existing, active, shop));
      assert Step(existing, active, shop)((creados, fallidos), products[i]) == step;
      if step.Err? {
        ErrSticks(products, i, |products|, ([], []), Step(existing, active, shop));
        return step, total;
      }
      creados, fallidos := step.value.0, step.value.1;
      i := i + 1;
    }
    r := Ok((creados, fallidos));
  }

  /**
   * A product the shop already has whose 'Ya Existe' row cannot be built
   * (a price that is a string, a null stock value, a promotion without an
   * end date) ends the whole run: nothing handles the exception.
   */
  lemma ExistingRowEndsRun(products: seq<Json>, n: nat, existing: set<Json>, active: Json -> bool, shop: Shop)
    requires n < |products| && products[n].JObj?
    requires Hashable(Sku(products[n].fields)) && Sku(products[n].fields) in existing && !ExistingRowOk(products[n].fields)
    ensures Reports(products, |products|, existing, active, shop).Err?
  {
    FoldNext(products, n, ([], []), Step(existing, active, shop));
    ErrSticks(products, n, |products|, ([], []), Step(existing, active, shop));
  }

  /** A product whose SKU the shop already has is never created: its SKU is only reported as existing. */
  lemma ExistingNeverCreated(products: seq<Json>, n: nat, existing: set<Json>, active: Json -> bool, shop: Shop, s: Json)
    requires n <= |products|
    requires s in existing
    requires Reports(products, n, existing, active, shop).Ok?
    ensures s !in Reports(products, n, existing, active, shop).value.0
  {
    StepCreatesOnlyNew(existing, active, shop);
    FoldCreatesOnlyNew(products, n, existing, Step(existing, active, shop), s);
  }
}
