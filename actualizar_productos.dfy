/**
 * `actualizar_producto_en_shopify` of the product update script: one record
 * of the combined snapshot is pushed to the Shopify variant with its SKU.
 * The Shopify calls are an oracle (`Shop`): the model is given what each
 * call answered, and decides, in the order the script checks them, which
 * failure reason the record gets or what is written.
 */
module ActualizarProductos {
  import opened Common
  import opened Tags

  /** `ETIQUETAS_PROMOCION`. */
  const PromoTags: set<string> := {"Promoción", "Promociones", "Oferta", "Ofertas",
                                   "Descuentos", "Rebajas", "Ofertas De Mayo", "Mayo"}

  /** `ALMACENES_ETIQUETAS`, in its insertion order. */
  const Warehouses: seq<(string, string)> := [
    ("TXL", "Tlaxcala"),
    ("PUE", "Puebla"),
    ("D2A", "Centro de Distribución Hermosillo"),
    ("DFA", "Centro de Distribución Azcapotzalco")
  ]

  /** The record fields turned into custom tags, in the order they are listed. */
  const TagFields: seq<string> := ["numParte", "marca", "categoria", "subcategoria", "modelo", "upc", "ean"]

  // ---------------------------------------------------------------
  // Numbers
  // ---------------------------------------------------------------

  /** `int(x)` of a float: truncation toward zero. */
  function TruncToward0(x: real): (r: int)
    ensures x >= 0.0 ==> r as real <= x < r as real + 1.0
    ensures x < 0.0 ==> r as real - 1.0 < x <= r as real
  {
    if x >= 0.0 then x.Floor else -((-x).Floor)
  }

  // ---------------------------------------------------------------
  // obtener_stock_total
  // ---------------------------------------------------------------

  /** The sum of the numeric values of `vals`; the others add nothing. */
  function SumNumeric(vals: seq<Json>): real
  {
    if vals == [] then 0.0
    else
      var last := NumericValue(vals[|vals| - 1]);
      SumNumeric(vals[..|vals| - 1]) + (if last.Some? then last.value else 0.0)
  }

  /** `obtener_stock_total`: 0 for a value that is not an object, else the sum of its numeric values. */
  function StockTotal(existencia: Json): (r: real)
    ensures !existencia.JObj? ==> r == 0.0
  {
    if existencia.JObj? then SumNumeric(Values(existencia.fields)) else 0.0
  }

  lemma {:induction false} SumNumericAppend(a: seq<Json>, b: seq<Json>)
    ensures SumNumeric(a + b) == SumNumeric(a) + SumNumeric(b)
    decreases |b|
  {
    if b == [] {
      assert a + b == a;
    } else {
      var b' := b[..|b| - 1];
      assert (a + b)[..|a + b| - 1] == a + b';
      SumNumericAppend(a, b');
    }
  }

  /** One more warehouse adds its count to the stock when it is a number, and nothing otherwise. */
  lemma StockOfNewWarehouse(fields: seq<(string, Json)>, code: string, v: Json)
    ensures StockTotal(JObj(fields + [(code, v)])) ==
            StockTotal(JObj(fields)) + (if NumericValue(v).Some? then NumericValue(v).value else 0.0)
  {
    assert Values(fields + [(code, v)]) == Values(fields) + [v];
    SumNumericAppend(Values(fields), [v]);
    assert [v][..0] == [];
  }

  /** When every numeric count is non-negative, so is the stock. */
  lemma {:induction false} SumNumericNonNegative(vals: seq<Json>)
    requires forall i :: 0 <= i < |vals| && NumericValue(vals[i]).Some? ==> NumericValue(vals[i]).value >= 0.0
    ensures SumNumeric(vals) >= 0.0
  {
    if vals != [] {
      SumNumericNonNegative(vals[..|vals| - 1]);
    }
  }

  lemma StockNonNegative(existencia: Json)
    requires existencia.JObj?
    requires forall e :: e in existencia.fields && NumericValue(e.1).Some? ==> NumericValue(e.1).value >= 0.0
    ensures StockTotal(existencia) >= 0.0
  {
    var vals := Values(existencia.fields);
    forall i | 0 <= i < |vals| && NumericValue(vals[i]).Some? ensures NumericValue(vals[i]).value >= 0.0 {
      assert existencia.fields[i] in existencia.fields;
    }
    SumNumericNonNegative(vals);
  }

  // ---------------------------------------------------------------
  // Warehouse labels
  // ---------------------------------------------------------------

  /**
   * `code in existencia and existencia[code] > 0`. On an object the count
   * must be a number (comparing a string or null with 0 raises TypeError); a
   * string or list that holds the code cannot be indexed by it, and any
   * other value does not support `in`.
   */
  function InStock(existencia: Json, code: string): (r: Result<bool>)
  {
    match existencia
    case JObj(fields) =>
      if HasKey(fields, code) then
        var n := NumericValue(Get(fields, code).value);
        if n.Some? then Ok(n.value > 0.0) else Err("TypeError")
      else Ok(false)
    case JStr(s) => if ContainsSub(s, code) then Err("TypeError") else Ok(false)
    case JList(items) => if JStr(code) in items then Err("TypeError") else Ok(false)
    case _ => Err("TypeError")
  }

  /** The labels the loop over the first `n` warehouses collects, or the error it raises first. */
  function LabelsUpTo(existencia: Json, n: nat): Result<seq<string>>
    requires n <= |Warehouses|
  {
    if n == 0 then Ok([])
    else
      var prev := LabelsUpTo(existencia, n - 1);
      if prev.Err? then prev
      else
        var s := InStock(existencia, Warehouses[n - 1].0);
        if s.Err? then Err(s.error)
        else Ok(prev.value + if s.value then [Warehouses[n - 1].1] else [])
  }

  /** The warehouse labels of a record. */
  function WarehouseLabels(existencia: Json): Result<seq<string>>
  {
    LabelsUpTo(existencia, |Warehouses|)
  }

  /** The label of warehouse `i` when it has stock, as a list of zero or one labels. */
  function LabelIf(existencia: Json, i: nat): seq<string>
    requires i < |Warehouses|
  {
    var s := InStock(existencia, Warehouses[i].0);
    if s.Ok? && s.value then [Warehouses[i].1] else []
  }

  /**
   * The labels are exactly those of the warehouses with stock, in the
   * order Tlaxcala, Puebla, Hermosillo, Azcapotzalco; the loop raises
   * exactly when one of the four checks does.
   */
  lemma {:induction false} WarehouseLabelsInMappingOrder(existencia: Json)
    ensures WarehouseLabels(existencia).Err? <==>
            exists i :: 0 <= i < |Warehouses| && InStock(existencia, Warehouses[i].0).Err?
    ensures WarehouseLabels(existencia).Ok? ==>
            WarehouseLabels(existencia).value ==
            LabelIf(existencia, 0) + LabelIf(existencia, 1) + LabelIf(existencia, 2) + LabelIf(existencia, 3)
  {
    var l1 := LabelsUpTo(existencia, 1);
    var l2 := LabelsUpTo(existencia, 2);
    var l3 := LabelsUpTo(existencia, 3);
    var l4 := LabelsUpTo(existencia, 4);
    assert LabelsUpTo(existencia, 0) == Ok([]);
    assert l1.Err? <==> InStock(existencia, Warehouses[0].0).Err?;
    assert l2.Err? <==> l1.Err? || InStock(existencia, Warehouses[1].0).Err?;
    assert l3.Err? <==> l2.Err? || InStock(existencia, Warehouses[2].0).Err?;
    assert l4.Err? <==> l3.Err? || InStock(existencia, Warehouses[3].0).Err?;
    if l4.Err? {
      var i :| 0 <= i < 4 && InStock(existencia, Warehouses[i].0).Err?;
    } else {
      assert l1.value == LabelIf(existencia, 0);
      assert l2.value == l1.value + LabelIf(existencia, 1);
      assert l3.value == l2.value + LabelIf(existencia, 2);
    }
  }

  /**
   * A record whose `existencia` is an object of numeric counts never
   * raises, and warehouse `i` contributes its label exactly when its count
   * is above zero.
   */
  lemma NumericCountsGiveLabels(existencia: Json, i: nat)
    requires existencia.JObj? && i < |Warehouses|
    requires forall e :: e in existencia.fields ==> NumericValue(e.1).Some?
    ensures WarehouseLabels(existencia).Ok?
    ensures LabelIf(existencia, i) ==
            if HasKey(existencia.fields, Warehouses[i].0) && NumericValue(Get(existencia.fields, Warehouses[i].0).value).value > 0.0
            then [Warehouses[i].1] else []
  {
    WarehouseLabelsInMappingOrder(existencia);
    forall j | 0 <= j < |Warehouses| ensures InStock(existencia, Warehouses[j].0).Ok? {
      var code := Warehouses[j].0;
      if HasKey(existencia.fields, code) {
        assert (code, Get(existencia.fields, code).value) in existencia.fields;
      }
    }
  }

  /** The loop of `actualizar_producto_en_shopify` that appends one label per stocked warehouse. */
  method CollectWarehouseLabels(existencia: Json) returns (r: Result<seq<string>>)
    ensures r == WarehouseLabels(existencia)
  {
    var etiquetas: seq<string> := [];
    var i := 0;
    while i < |Warehouses|
      invariant 0 <= i <= |Warehouses|
      invariant LabelsUpTo(existencia, i) == Ok(etiquetas)
    {
      var s := InStock(existencia, Warehouses[i].0);
      if s.Err? {
        LabelsErrSticks(existencia, i + 1);
        return Err(s.error);
      }
      ghost var before := etiquetas;
      if s.value {
        etiquetas := etiquetas + [Warehouses[i].1];
      } else {
        assert before + [] == etiquetas;
      }
      assert LabelsUpTo(existencia, i + 1) == Ok(before + if s.value then [Warehouses[i].1] else []);
      i := i + 1;
    }
    r := Ok(etiquetas);
  }

  /** Once one warehouse check raises, the whole loop does. */
  lemma {:induction false} LabelsErrSticks(existencia: Json, n: nat)
    requires 1 <= n <= |Warehouses|
    requires LabelsUpTo(existencia, n).Err?
    ensures WarehouseLabels(existencia) == LabelsUpTo(existencia, n)
    decreases |Warehouses| - n
  {
    if n < |Warehouses| {
      LabelsErrSticks(existencia, n + 1);
    }
  }

  // ---------------------------------------------------------------
  // Promotion
  // ---------------------------------------------------------------

  /** The promotion types that activate a promotion. */
  predicate PromoType(tipo: string)
  {
    tipo == "porcentaje" || tipo == "importe"
  }

  /**
   * Whether the record's promotion is active: for a non-empty list, its
   * first entry must be an object whose `tipo` (default "") is a string,
   * or the script raises AttributeError.
   */
  function PromotionActive(promociones: Json, parse: string -> Option<real>): (r: Result<bool>)
  {
    if Truthy(promociones) && promociones.JList? then
      var primera := promociones.items[0];
      if !primera.JObj? then Err("AttributeError")
      else
        var valor := GetOr(primera.fields, "promocion", JNull);
        var tipo := GetOr(primera.fields, "tipo", JStr(""));
        if !tipo.JStr? then Err("AttributeError")
        else Ok(Truthy(valor) && PromoType(Lower(tipo.s)) && FloatOf(valor, parse).Some?)
    else Ok(false)
  }

  /**
   * A promotion is active iff the first promotion has a truthy value, a
   * type that lower-cases to "porcentaje" or "importe", and a value that
   * converts to a number; a missing, empty or non-list `promociones` is
   * never active.
   */
  lemma PromotionActiveIff(promociones: Json, parse: string -> Option<real>)
    ensures !promociones.JList? || promociones.items == [] ==> PromotionActive(promociones, parse) == Ok(false)
    ensures PromotionActive(promociones, parse) == Ok(true) <==>
      promociones.JList? && promociones.items != [] && promociones.items[0].JObj? &&
      var f := promociones.items[0].fields;
      var valor := GetOr(f, "promocion", JNull);
      GetOr(f, "tipo", JStr("")).JStr? &&
      Truthy(valor) && PromoType(Lower(GetOr(f, "tipo", JStr("")).s)) && FloatOf(valor, parse).Some?
    ensures PromotionActive(promociones, parse).Err? <==>
      promociones.JList? && promociones.items != [] &&
      (!promociones.items[0].JObj? || !GetOr(promociones.items[0].fields, "tipo", JStr("")).JStr?)
  {
  }

  /** Upper-case types count too: "Porcentaje" activates a promotion. */
  lemma PromoTypeIgnoresCase(parse: string -> Option<real>)
    ensures PromotionActive(JList([JObj([("promocion", JInt(10)), ("tipo", JStr("Porcentaje"))])]), parse) == Ok(true)
  {
    var f := [("promocion", JInt(10)), ("tipo", JStr("Porcentaje"))];
    assert GetOr(f, "tipo", JStr("")) == JStr("Porcentaje");
    assert GetOr(f, "promocion", JNull) == JInt(10);
    assert Lower("Porcentaje") == "porcentaje";
  }

  // ---------------------------------------------------------------
  // Tags
  // ---------------------------------------------------------------

  /** `list(filter(None, [producto.get(k) for k in TagFields[..n]]))`. */
  function TagInputs(fields: seq<(string, Json)>, n: nat): (r: seq<Json>)
    requires n <= |TagFields|
    ensures |r| <= n
    ensures forall v :: v in r ==> Truthy(v)
  {
    if n == 0 then []
    else
      var v := GetOr(fields, TagFields[n - 1], JNull);
      TagInputs(fields, n - 1) + if Truthy(v) then [v] else []
  }

  /** The strings of a list of JSON strings, as entries `sanitize_tags` is given. */
  function AsEntries(vals: seq<Json>): (r: seq<Option<string>>)
    requires forall v :: v in vals ==> v.JStr?
    ensures |r| == |vals|
    ensures forall i :: 0 <= i < |vals| ==> r[i] == Some(vals[i].s)
  {
    seq(|vals|, i requires 0 <= i < |vals| => Some(vals[i].s))
  }

  /**
   * The custom tag set: the record's truthy tag fields and the warehouse
   * labels, sanitised, with `['SinTag']` when nothing survives. A truthy
   * tag field that is not a string makes `sanitize_tags` raise (`strip`
   * is not defined on it).
   */
  function CustomTags(fields: seq<(string, Json)>, labels: seq<string>): Result<set<string>>
  {
    var inputs := TagInputs(fields, |TagFields|);
    if exists v :: v in inputs && !v.JStr? then Err("AttributeError")
    else Ok(set t | t in OrDefault(Sanitized(AsEntries(inputs) + SomeTags(labels))))
  }

  /**
   * The custom tag set is never empty and holds only well-formed tags; it
   * is missing exactly when a truthy tag field is not a string.
   */
  lemma CustomTagsWellFormed(fields: seq<(string, Json)>, labels: seq<string>)
    ensures CustomTags(fields, labels).Err? <==> exists v :: v in TagInputs(fields, |TagFields|) && !v.JStr?
    ensures CustomTags(fields, labels).Ok? ==>
      CustomTags(fields, labels).value != {} && forall t :: t in CustomTags(fields, labels).value ==> WellFormedTag(t)
  {
    var inputs := TagInputs(fields, |TagFields|);
    if !exists v :: v in inputs && !v.JStr? {
      var tags := OrDefault(Sanitized(AsEntries(inputs) + SomeTags(labels)));
      SanitizedWellFormed(AsEntries(inputs) + SomeTags(labels));
      var st := set t | t in tags;
      assert CustomTags(fields, labels) == Ok(st);
      assert tags[0] in st;
    }
  }

  lemma SanitizedWellFormed(tags: seq<Option<string>>)
    ensures forall t :: t in Sanitized(tags) ==> WellFormedTag(t)
  {
    forall t | t in Sanitized(tags) ensures WellFormedTag(t) {
      SanitizedMembers(tags, t);
      var i :| 0 <= i < |tags| && Kept(tags[i]) && CleanTag(tags[i].value) == t;
      CleanTagWellFormed(tags[i].value);
    }
  }

  /**
   * The tag set after the promotion step and the union with the custom
   * tags (`update`/`difference_update` on a copy of the current tags).
   */
  function NewTagSet(current: set<string>, active: bool, custom: set<string>): set<string>
  {
    (if active then current + PromoTags else current - PromoTags) + custom
  }

  /**
   * The custom tags are always present; the promotion tags are all present
   * when the promotion is active and, otherwise, only those a custom tag
   * brings back; every other current tag is kept and nothing else is added.
   */
  lemma NewTagSetMeaning(current: set<string>, active: bool, custom: set<string>)
    ensures custom <= NewTagSet(current, active, custom)
    ensures active ==> PromoTags <= NewTagSet(current, active, custom)
    ensures !active ==> NewTagSet(current, active, custom) * PromoTags <= custom
    ensures forall t :: t !in PromoTags ==> (t in NewTagSet(current, active, custom) <==> t in current || t in custom)
  {
  }

  /** Running the update twice changes nothing the second time: the tags are written at most once. */
  lemma NewTagSetIdempotent(current: set<string>, active: bool, custom: set<string>)
    ensures NewTagSet(NewTagSet(current, active, custom), active, custom) == NewTagSet(current, active, custom)
  {
  }

  // ---------------------------------------------------------------
  // actualizar_producto_en_shopify
  // ---------------------------------------------------------------

  /** What the price mutation answered. */
  datatype PriceResponse = PriceApplied | PriceUserErrors | PriceNoResponse

  /** What each Shopify call made for one record answers. */
  datatype Shop = Shop(
    variant: Option<string>,        // the variant id of the SKU, None when no variant has it
    inventoryItem: Option<string>,  // the inventory item id, None when the query fails
    price: PriceResponse,
    tags: Json,                     // the product's `tags` field; null when the query fails
    tagsUpdateOk: bool,             // `actualizar_etiquetas_producto` succeeds
    inventoryOk: bool               // the inventory level call answers
  )

  /** The `Razón del Fallo` values. */
  datatype Reason =
    | SkuNotFound         // 'SKU no encontrado'
    | InvalidNumbers      // 'Datos numéricos inválidos'
    | NoInventoryItem     // 'No se pudo obtener inventory_item_id'
    | PriceErrors         // 'Errores al actualizar precio'
    | PriceNotUpdated     // 'Error al actualizar precio'
    | TagErrors           // 'Errores al actualizar etiquetas'
    | InventoryNotAdjusted  // 'Error al ajustar inventario'

  /**
   * The result for one record: a failure reason, or what was written: the
   * stock, the quantity sent to inventory, whether the promotion is on, and
   * the new tag set when it differed from the current one.
   */
  datatype Outcome =
    | Failed(reason: Reason)
    | Updated(stock: real, available: int, promotion: bool, tagsWritten: Option<set<string>>)

  function Field(fields: seq<(string, Json)>, key: string, default: Json): Json
  {
    GetOr(fields, key, default)
  }

  predicate SkuFound(fields: seq<(string, Json)>, shop: Shop)
  {
    Truthy(Field(fields, "clave", JNull)) && shop.variant.Some? && shop.variant.value != ""
  }

  predicate NumbersValid(fields: seq<(string, Json)>, parse: string -> Option<real>)
  {
    FloatOf(Field(fields, "precio", JInt(0)), parse).Some? && FloatOf(Field(fields, "tipoCambio", JInt(1)), parse).Some?
  }

  function Promotion(fields: seq<(string, Json)>, parse: string -> Option<real>): Result<bool>
  {
    PromotionActive(Field(fields, "promociones", JList([])), parse)
  }

  predicate HasInventoryItem(shop: Shop)
  {
    shop.inventoryItem.Some? && shop.inventoryItem.value != ""
  }

  function Existencia(fields: seq<(string, Json)>): Json
  {
    Field(fields, "existencia", JObj([]))
  }

  /** The record gets as far as the inventory item query. */
  predicate ReachesInventoryItem(fields: seq<(string, Json)>, shop: Shop, parse: string -> Option<real>)
  {
    SkuFound(fields, shop) && NumbersValid(fields, parse) && Promotion(fields, parse).Ok?
  }

  /** The record gets as far as the price mutation. */
  predicate ReachesPrice(fields: seq<(string, Json)>, shop: Shop, parse: string -> Option<real>)
  {
    ReachesInventoryItem(fields, shop, parse) && HasInventoryItem(shop) &&
    WarehouseLabels(Existencia(fields)).Ok? &&
    CustomTags(fields, WarehouseLabels(Existencia(fields)).value).Ok?
  }

  /** The tag set the record should end up with. */
  function TargetTags(fields: seq<(string, Json)>, shop: Shop, parse: string -> Option<real>): set<string>
    requires ReachesPrice(fields, shop, parse)
  {
    NewTagSet(ParseTags(shop.tags), Promotion(fields, parse).value,
              CustomTags(fields, WarehouseLabels(Existencia(fields)).value).value)
  }

  predicate TagsChange(fields: seq<(string, Json)>, shop: Shop, parse: string -> Option<real>)
    requires ReachesPrice(fields, shop, parse)
  {
    TargetTags(fields, shop, parse) != ParseTags(shop.tags)
  }

  /** The record gets as far as the inventory adjustment. */
  predicate ReachesInventory(fields: seq<(string, Json)>, shop: Shop, parse: string -> Option<real>)
  {
    ReachesPrice(fields, shop, parse) && shop.price == PriceApplied &&
    (TagsChange(fields, shop, parse) ==> shop.tagsUpdateOk)
  }

  /**
   * With the promotion active, the `product_timer` step reads
   * `promociones[0].get('vigencia', {}).get('fin')` and passes it to
   * `validar_fecha`: `vigencia` must be a dict (or absent), and a truthy
   * `fin` must be a string, since `strptime` raises TypeError on anything
   * else and only ValueError is caught.
   */
  predicate TimerReadable(fields: seq<(string, Json)>)
  {
    var ps := Field(fields, "promociones", JList([]));
    ps.JList? && ps.items != [] && ps.items[0].JObj? ==>
      var vigencia := GetOr(ps.items[0].fields, "vigencia", JObj([]));
      vigencia.JObj? && (var fin := GetOr(vigencia.fields, "fin", JNull); !Truthy(fin) || fin.JStr?)
  }

  /**
   * `actualizar_producto_en_shopify(producto, location_id)`. `parse` is
   * `float` on strings. An exception the script does not catch is `Err`.
   */
  method UpdateProduct(producto: Json, shop: Shop, parse: string -> Option<real>) returns (r: Result<Outcome>)
    ensures !producto.JObj? ==> r.Err?
    ensures producto.JObj? ==> var f := producto.fields;
      && (r == Ok(Failed(SkuNotFound)) <==> !SkuFound(f, shop))
      && (r == Ok(Failed(InvalidNumbers)) <==> SkuFound(f, shop) && !NumbersValid(f, parse))
      && (r == Ok(Failed(NoInventoryItem)) <==> ReachesInventoryItem(f, shop, parse) && !HasInventoryItem(shop))
      && (r == Ok(Failed(PriceErrors)) <==> ReachesPrice(f, shop, parse) && shop.price == PriceUserErrors)
      && (r == Ok(Failed(PriceNotUpdated)) <==> ReachesPrice(f, shop, parse) && shop.price == PriceNoResponse)
      && (r == Ok(Failed(TagErrors)) <==>
            ReachesPrice(f, shop, parse) && shop.price == PriceApplied && TagsChange(f, shop, parse) && !shop.tagsUpdateOk)
      && (r == Ok(Failed(InventoryNotAdjusted)) <==> ReachesInventory(f, shop, parse) && !shop.inventoryOk)
      && (r.Ok? && r.value.Updated? <==>
            ReachesInventory(f, shop, parse) && shop.inventoryOk && (Promotion(f, parse).value ==> TimerReadable(f)))
      && (ReachesInventory(f, shop, parse) && shop.inventoryOk && Promotion(f, parse).value && !TimerReadable(f) ==> r.Err?)
      && (r.Ok? && r.value.Updated? ==>
            r.value.stock == StockTotal(Existencia(f)) &&
            r.value.available == TruncToward0(StockTotal(Existencia(f))) &&
            r.value.promotion == Promotion(f, parse).value &&
            r.value.tagsWritten == if TagsChange(f, shop, parse) then Some(TargetTags(f, shop, parse)) else None)
  {
    if !producto.JObj? {
      return Err("AttributeError");
    }
    var fields := producto.fields;
    if !Truthy(Field(fields, "clave", JNull)) || shop.variant.None? || shop.variant.value == "" {
      return Ok(Failed(SkuNotFound));
    }
    if FloatOf(Field(fields, "precio", JInt(0)), parse).None? || FloatOf(Field(fields, "tipoCambio", JInt(1)), parse).None? {
      return Ok(Failed(InvalidNumbers));
    }
    var promocion := PromotionActive(Field(fields, "promociones", JList([])), parse);
    if promocion.Err? {
      return Err(promocion.error);
    }
    var stock := StockTotal(Existencia(fields));
    if shop.inventoryItem.None? || shop.inventoryItem.value == "" {
      return Ok(Failed(NoInventoryItem));
    }
    var labels := CollectWarehouseLabels(Existencia(fields));
    if labels.Err? {
      return Err(labels.error);
    }
    var custom := CustomTags(fields, labels.value);
    if custom.Err? {
      return Err(custom.error);
    }
    if shop.price == PriceUserErrors {
      return Ok(Failed(PriceErrors));
    } else if shop.price == PriceNoResponse {
      return Ok(Failed(PriceNotUpdated));
    }
    var written := UpdateTags(ParseTags(shop.tags), promocion.value, custom.value);
    if written.Some? && !shop.tagsUpdateOk {
      return Ok(Failed(TagErrors));
    }
    if !shop.inventoryOk {
      return Ok(Failed(InventoryNotAdjusted));
    }
    if promocion.value && !TimerReadable(fields) {
      return Err("product_timer: unreadable end date");
    }
    r := Ok(Updated(stock, TruncToward0(stock), promocion.value, written));
  }

  /**
   * The promotion and custom tag step on a copy of the current tags: the
   * new set when it differs from the current one (and must be written),
   * None when nothing changed and no update is sent.
   */
  method UpdateTags(current: set<string>, active: bool, custom: set<string>) returns (written: Option<set<string>>)
    ensures written.Some? <==> NewTagSet(current, active, custom) != current
    ensures written.Some? ==> written.value == NewTagSet(current, active, custom)
  {
    var modificadas := current;
    if active {
      modificadas := modificadas + PromoTags;
    } else {
      modificadas := modificadas - PromoTags;
    }
    modificadas := modificadas + custom;
    written := if modificadas != current then Some(modificadas) else None;
  }
}
