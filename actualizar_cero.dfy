/**
 * `actualizar_producto_en_shopify` of the zero-stock script: the Shopify
 * inventory of every listed SKU is set to 0 and the product gets the tag
 * "Sin Stock", after its current tags are sanitised again. The Shopify
 * calls are an oracle (`Shop`).
 */
module ActualizarCero {
  import opened Common
  import opened Tags

  const OutOfStockTag: string := "Sin Stock"

  /** What each Shopify call made for one record answers. */
  datatype Shop = Shop(
    variant: Option<string>,        // the variant id of the SKU, None when no variant has it
    inventoryItem: Option<string>,  // the inventory item id, None when the query fails
    inventoryOk: bool,              // the inventory level call answers
    tags: Json,                     // the product's `tags` field; null when the query fails
    tagsUpdateOk: bool              // `actualizar_etiquetas_producto` succeeds
  )

  /** The `Razón del Fallo` values. */
  datatype Reason =
    | SkuNotFound           // 'SKU no encontrado'
    | NoInventoryItem       // 'No se pudo obtener inventory_item_id'
    | InventoryNotAdjusted  // 'Error al ajustar inventario'
    | TagErrors             // 'Errores al actualizar etiquetas'

  /** The result for one record: a failure reason, or the stock and the tag list written. */
  datatype Outcome =
    | Failed(reason: Reason)
    | Updated(stock: int, tags: seq<string>)

  /**
   * `order` lists the set `s` once each, in the (unspecified) order in
   * which Python iterates over it.
   */
  ghost predicate Enumerates(order: seq<string>, s: set<string>)
  {
    (forall t :: t in order <==> t in s) &&
    (forall i, j :: 0 <= i < j < |order| ==> order[i] != order[j])
  }

  /** The tags written: the current ones and "Sin Stock", sanitised, with the 'SinTag' default. */
  function ZeroStockTags(order: seq<string>): seq<string>
  {
    OrDefault(Sanitized(SomeTags(order)))
  }

  /** `t` is the cleaned form of a current tag that survives sanitising. */
  ghost predicate CleanedFrom(current: set<string>, t: string)
  {
    exists u :: u in current && Kept(Some(u)) && CleanTag(u) == t
  }

  lemma SanitizedFromCurrent(current: set<string>, order: seq<string>, t: string)
    requires Enumerates(order, current + {OutOfStockTag})
    requires t in Sanitized(SomeTags(order))
    ensures t == OutOfStockTag || CleanedFrom(current, t)
  {
    var entries := SomeTags(order);
    SanitizedMembers(entries, t);
    var i :| 0 <= i < |entries| && Kept(entries[i]) && CleanTag(entries[i].value) == t;
    var u := order[i];
    assert entries[i].value == u;
    assert u in order;
    if u == OutOfStockTag {
      SinStockSurvives();
    } else {
      assert u in current;
    }
  }

  lemma CurrentReachesSanitized(current: set<string>, order: seq<string>, t: string)
    requires Enumerates(order, current + {OutOfStockTag})
    requires t == OutOfStockTag || CleanedFrom(current, t)
    ensures t in Sanitized(SomeTags(order))
  {
    var entries := SomeTags(order);
    var u := OutOfStockTag;
    if t == OutOfStockTag {
      SinStockSurvives();
    } else {
      u :| u in current && Kept(Some(u)) && CleanTag(u) == t;
    }
    assert u in order;
    var i :| 0 <= i < |order| && order[i] == u;
    assert entries[i] == Some(u);
    SanitizedMembers(entries, t);
  }

  /**
   * The tags written hold "Sin Stock" (so the 'SinTag' default never
   * applies), are all well-formed, and are exactly the cleaned forms of
   * the current tags that survive sanitising, together with "Sin Stock".
   */
  lemma ZeroStockTagsMeaning(current: set<string>, order: seq<string>)
    requires Enumerates(order, current + {OutOfStockTag})
    ensures OutOfStockTag in ZeroStockTags(order)
    ensures ZeroStockTags(order) == Sanitized(SomeTags(order))
    ensures forall t :: t in ZeroStockTags(order) ==> WellFormedTag(t)
    ensures forall t :: t in ZeroStockTags(order) <==> t == OutOfStockTag || CleanedFrom(current, t)
  {
    var entries := SomeTags(order);
    CurrentReachesSanitized(current, order, OutOfStockTag);
    forall t ensures t in Sanitized(entries) <==> t == OutOfStockTag || CleanedFrom(current, t) {
      if t in Sanitized(entries) {
        SanitizedFromCurrent(current, order, t);
      } else if t == OutOfStockTag || CleanedFrom(current, t) {
        CurrentReachesSanitized(current, order, t);
      }
    }
    forall t | t in Sanitized(entries) ensures WellFormedTag(t) {
      SanitizedMembers(entries, t);
      var i :| 0 <= i < |entries| && Kept(entries[i]) && CleanTag(entries[i].value) == t;
      CleanTagWellFormed(entries[i].value);
    }
  }

  /**
   * A product on promotion that goes through the zero-stock script keeps
   * "Promocin" instead of "Promoción": a tag the promotion tags of the
   * update script do not name.
   */
  lemma PromotionTagBecomesUnknown(current: set<string>, order: seq<string>)
    requires Enumerates(order, current + {OutOfStockTag})
    requires "Promoción" in current
    ensures "Promocin" in ZeroStockTags(order)
    ensures "Promoción" !in ZeroStockTags(order)
  {
    ZeroStockTagsMeaning(current, order);
    PromotionTagRewritten();
    PromotionTagNotClean();
  }

  /** `sanitize_and_update_tags`: the sanitised list (or ['SinTag']) is sent, and the call's success returned. */
  method SanitizeAndUpdateTags(order: seq<string>, updateOk: bool) returns (success: bool, sanitized: seq<string>)
    ensures success == updateOk
    ensures sanitized == ZeroStockTags(order)
    ensures sanitized != [] && forall t :: t in sanitized ==> WellFormedTag(t)
  {
    sanitized := SanitizeTags(SomeTags(order));
    if sanitized == [] {
      sanitized := [DefaultTag];
    }
    success := updateOk;
  }

  predicate SkuFound(fields: seq<(string, Json)>, shop: Shop)
  {
    Truthy(GetOr(fields, "clave", JNull)) && shop.variant.Some? && shop.variant.value != ""
  }

  predicate HasInventoryItem(shop: Shop)
  {
    shop.inventoryItem.Some? && shop.inventoryItem.value != ""
  }

  /**
   * `actualizar_producto_en_shopify(producto, location_id)`. `order` is
   * the iteration order of the tag set `current ∪ {"Sin Stock"}`. An
   * exception the script does not catch is `Err`.
   */
  method UpdateProduct(producto: Json, shop: Shop, order: seq<string>) returns (r: Result<Outcome>)
    requires Enumerates(order, ParseTags(shop.tags) + {OutOfStockTag})
    ensures r.Err? <==> !producto.JObj?
    ensures producto.JObj? ==> var f := producto.fields;
      && (r == Ok(Failed(SkuNotFound)) <==> !SkuFound(f, shop))
      && (r == Ok(Failed(NoInventoryItem)) <==> SkuFound(f, shop) && !HasInventoryItem(shop))
      && (r == Ok(Failed(InventoryNotAdjusted)) <==> SkuFound(f, shop) && HasInventoryItem(shop) && !shop.inventoryOk)
      && (r == Ok(Failed(TagErrors)) <==>
            SkuFound(f, shop) && HasInventoryItem(shop) && shop.inventoryOk && !shop.tagsUpdateOk)
    ensures r.Ok? && r.value.Updated? ==>
      r.value.stock == 0 && r.value.tags == ZeroStockTags(order) && OutOfStockTag in r.value.tags
  {
    if !producto.JObj? {
      return Err("AttributeError");
    }
    var fields := producto.fields;
    if !Truthy(GetOr(fields, "clave", JNull)) || shop.variant.None? || shop.variant.value == "" {
      return Ok(Failed(SkuNotFound));
    }
    if shop.inventoryItem.None? || shop.inventoryItem.value == "" {
      return Ok(Failed(NoInventoryItem));
    }
    var stock := 0;
    if !shop.inventoryOk {
      return Ok(Failed(InventoryNotAdjusted));
    }
    var success, sanitized := SanitizeAndUpdateTags(order, shop.tagsUpdateOk);
    if !success {
      return Ok(Failed(TagErrors));
    }
    ZeroStockTagsMeaning(ParseTags(shop.tags), order);
    r := Ok(Updated(stock, sanitized));
  }
}
