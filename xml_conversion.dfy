/**
 * `xml_to_json`: the toner feed arrives as XML, one `Producto` element per
 * product, and is turned into the same record shape as the JSON feed.
 */
module XmlConversion {
  import opened Common

  /** An ElementTree element: its tag, its text (None when it has none) and its children. */
  datatype XmlNode = XmlNode(tag: string, text: Option<string>, children: seq<XmlNode>)

  /** The first node of `nodes` with the tag, as `find` returns it. */
  function FirstWithTag(nodes: seq<XmlNode>, tag: string): (r: Option<XmlNode>)
    ensures r.None? <==> forall i :: 0 <= i < |nodes| ==> nodes[i].tag != tag
    ensures r.Some? ==> exists i :: 0 <= i < |nodes| && nodes[i] == r.value && r.value.tag == tag
                                    && forall j :: 0 <= j < i ==> nodes[j].tag != tag
  {
    if nodes == [] then None
    else if nodes[0].tag == tag then Some(nodes[0])
    else FirstWithTag(nodes[1..], tag)
  }

  /** `item.findtext(tag)`: the text of the first child with the tag ("" if it has none), or None. */
  function FindText(item: XmlNode, tag: string): Option<string>
  {
    match FirstWithTag(item.children, tag)
    case None => None
    case Some(child) => Some(if child.text.Some? then child.text.value else "")
  }

  /** `item.findtext(tag, default="")`. */
  function FindTextOr(item: XmlNode, tag: string): string
  {
    match FindText(item, tag)
    case None => ""
    case Some(t) => t
  }

  /** `root.findall('./Producto')`: the children tagged Producto, in document order. */
  function Productos(root: XmlNode): seq<XmlNode>
  {
    ChildrenTagged(root.children, "Producto")
  }

  function ChildrenTagged(nodes: seq<XmlNode>, tag: string): (r: seq<XmlNode>)
    ensures |r| <= |nodes|
    ensures forall x :: x in r ==> x in nodes && x.tag == tag
    ensures forall i :: 0 <= i < |nodes| && nodes[i].tag == tag ==> nodes[i] in r
    ensures IsSubsequence(r, nodes)
  {
    if nodes == [] then []
    else if nodes[|nodes| - 1].tag == tag then ChildrenTagged(nodes[..|nodes| - 1], tag) + [nodes[|nodes| - 1]]
    else ChildrenTagged(nodes[..|nodes| - 1], tag)
  }

  /** The record `xml_to_json` builds for one product. */
  datatype Product = Product(
    clave: string, numParte: string, nombre: string, modelo: string,
    idMarca: Option<nat>, marca: string, idSubCategoria: Option<nat>, subcategoria: string,
    idCategoria: Option<nat>, categoria: string, descripcionCorta: string,
    ean: string, upc: string, sustituto: string,
    activo: nat, protegido: nat, existencia: seq<(string, nat)>,
    precio: real, moneda: string, tipoCambio: real, imagen: string)

  /** `int(t) if t and t.isdigit() else None` for an `id*` field. */
  function IdField(item: XmlNode, tag: string): Option<nat>
  {
    var t := FindText(item, tag);
    if t.Some? && IsDigits(t.value) then Some(DigitsValue(t.value)) else None
  }

  /** A price field: `float(t) if t and is_float(t) else fallback`, with `toFloat` standing for `is_float` and `float`. */
  function FloatField(item: XmlNode, tag: string, toFloat: string -> Option<real>, fallback: real): real
  {
    var t := FindText(item, tag);
    if t.Some? && t.value != "" && toFloat(t.value).Some? then toFloat(t.value).value else fallback
  }

  /** One branch's stock: `int(text) if text and text.isdigit() else 0`. */
  function StockOf(sucursal: XmlNode): nat
  {
    if sucursal.text.Some? && IsDigits(sucursal.text.value) then DigitsValue(sucursal.text.value) else 0
  }

  /**
   * `producto['existencia'][sucursal.tag] = ...` for each child in turn: a
   * repeated branch keeps its first position and takes the later value.
   */
  function StockTable(sucursales: seq<XmlNode>): seq<(string, nat)>
  {
    if sucursales == [] then []
    else
      var last := sucursales[|sucursales| - 1];
      Put(StockTable(sucursales[..|sucursales| - 1]), last.tag, StockOf(last))
  }

  lemma StockTableSnoc(bs: seq<XmlNode>, k: nat)
    requires k < |bs|
    ensures StockTable(bs[..k + 1]) == Put(StockTable(bs[..k]), bs[k].tag, StockOf(bs[k]))
  {
    assert bs[..k + 1][..k] == bs[..k];
  }

  /** The branches listed under the first `existencia` child, if any. */
  function Branches(item: XmlNode): seq<XmlNode>
  {
    match FirstWithTag(item.children, "existencia")
    case None => []
    case Some(e) => e.children
  }

  /** The name with brand and model appended when both are given and neither is in it yet. */
  predicate NeedsBrandAndModel(nombre: string, marca: string, modelo: string)
  {
    marca != "" && !ContainsSub(nombre, marca) && modelo != "" && !ContainsSub(nombre, modelo)
  }

  function FullName(nombre: string, marca: string, modelo: string): string
  {
    if NeedsBrandAndModel(nombre, marca, modelo) then Strip(nombre + " " + marca + " " + modelo) else nombre
  }

  /** The record as first built for one `Producto` element: no stock yet and the name as given. */
  function BaseProduct(item: XmlNode, toFloat: string -> Option<real>): (p: Product)
    ensures p.protegido == 0
    ensures p.activo == 1 <==> Lower(FindTextOr(item, "status")) == "activo"
    ensures p.activo <= 1
    ensures p.existencia == []
  {
    Product(
      FindTextOr(item, "clave"), FindTextOr(item, "no_parte"), FindTextOr(item, "nombre"), FindTextOr(item, "modelo"),
      IdField(item, "idMarca"), FindTextOr(item, "marca"), IdField(item, "idSubCategoria"), FindTextOr(item, "subcategoria"),
      IdField(item, "idCategoria"), FindTextOr(item, "categoria"), FindTextOr(item, "descripcion_corta"),
      FindTextOr(item, "ean"), FindTextOr(item, "upc"), FindTextOr(item, "sustituto"),
      if Lower(FindTextOr(item, "status")) == "activo" then 1 else 0, 0, [],
      FloatField(item, "precio", toFloat, 0.0), FindTextOr(item, "moneda"),
      FloatField(item, "tipo_cambio", toFloat, 1.0), FindTextOr(item, "imagen"))
  }

  /** The finished record for one `Producto` element: the stock table filled in and the name extended. */
  function ProductOf(item: XmlNode, toFloat: string -> Option<real>): Product
  {
    var p := BaseProduct(item, toFloat);
    p.(existencia := StockTable(Branches(item)), nombre := FullName(p.nombre, p.marca, p.modelo))
  }

  function IdJson(id: Option<nat>): Json
  {
    if id.Some? then JInt(id.value) else JNull
  }

  /** The record as the JSON object written to the output file, keys in the source's order. */
  function ProductJson(p: Product): Json
  {
    JObj([("idProducto", JNull), ("clave", JStr(p.clave)), ("numParte", JStr(p.numParte)),
          ("nombre", JStr(p.nombre)), ("modelo", JStr(p.modelo)), ("idMarca", IdJson(p.idMarca)),
          ("marca", JStr(p.marca)), ("idSubCategoria", IdJson(p.idSubCategoria)),
          ("subcategoria", JStr(p.subcategoria)), ("idCategoria", IdJson(p.idCategoria)),
          ("categoria", JStr(p.categoria)), ("descripcion_corta", JStr(p.descripcionCorta)),
          ("ean", JStr(p.ean)), ("upc", JStr(p.upc)), ("sustituto", JStr(p.sustituto)),
          ("activo", JInt(p.activo)), ("protegido", JInt(p.protegido)),
          ("existencia", JObj(seq(|p.existencia|, i requires 0 <= i < |p.existencia| =>
                                  (p.existencia[i].0, JInt(p.existencia[i].1))))),
          ("precio", JFloat(p.precio)), ("moneda", JStr(p.moneda)), ("tipoCambio", JFloat(p.tipoCambio)),
          ("especificaciones", JList([])), ("promociones", JList([])), ("imagen", JStr(p.imagen))])
  }

  /** The list `json.dump` writes: each record as its JSON object, in order. */
  function ProductsJson(ps: seq<Product>): (r: seq<Json>)
    ensures |r| == |ps|
    ensures forall i :: 0 <= i < |ps| ==> r[i] == ProductJson(ps[i])
  {
    if ps == [] then [] else ProductsJson(ps[..|ps| - 1]) + [ProductJson(ps[|ps| - 1])]
  }

  /** One record per element, in order. */
  function ProductsOf(items: seq<XmlNode>, toFloat: string -> Option<real>): (r: seq<Product>)
    ensures |r| == |items|
  {
    if items == [] then [] else ProductsOf(items[..|items| - 1], toFloat) + [ProductOf(items[|items| - 1], toFloat)]
  }

  lemma ProductsOfSnoc(items: seq<XmlNode>, i: nat, toFloat: string -> Option<real>)
    requires i < |items|
    ensures ProductsOf(items[..i + 1], toFloat) == ProductsOf(items[..i], toFloat) + [ProductOf(items[i], toFloat)]
  {
    assert items[..i + 1][..i] == items[..i];
  }

  /** The `i`-th record is the conversion of the `i`-th element. */
  lemma {:induction false} ProductsOfAt(items: seq<XmlNode>, toFloat: string -> Option<real>, i: nat)
    requires i < |items|
    ensures ProductsOf(items, toFloat)[i] == ProductOf(items[i], toFloat)
  {
    if i < |items| - 1 { ProductsOfAt(items[..|items| - 1], toFloat, i); }
  }

  /**
   * `xml_to_json` up to writing the file: None stands for an XML file that
   * does not parse, which raises. One record per `Producto`, in document
   * order; the count returned is the number of records.
   */
  method XmlToJson(root: Option<XmlNode>, toFloat: string -> Option<real>) returns (r: Result<seq<Product>>)
    ensures root.None? <==> r.Err?
    ensures r.Ok? ==> r.value == ProductsOf(Productos(root.value), toFloat)
  {
    if root.None? {
      return Err("Error al leer el archivo XML");
    }
    var items := Productos(root.value);
    var productos: seq<Product> := [];
    var i := 0;
    while i < |items|
      invariant 0 <= i <= |items|
      invariant productos == ProductsOf(items[..i], toFloat)
    {
      var producto := ConvertProduct(items[i], toFloat);
      ProductsOfSnoc(items, i, toFloat);
      productos := productos + [producto];
      i := i + 1;
    }
    assert items[..i] == items;
    return Ok(productos);
  }

  /** The body of the loop of `xml_to_json` for one element: build the record, fill the stock, extend the name. */
  method ConvertProduct(item: XmlNode, toFloat: string -> Option<real>) returns (producto: Product)
    ensures producto == ProductOf(item, toFloat)
  {
    var base := BaseProduct(item, toFloat);
    producto := base;
    var branches := Branches(item);
    var k := 0;
    while k < |branches|
      invariant 0 <= k <= |branches|
      invariant producto == base.(existencia := StockTable(branches[..k]))
    {
      StockTableSnoc(branches, k);
      producto := producto.(existencia := Put(producto.existencia, branches[k].tag, StockOf(branches[k])));
      k := k + 1;
    }
    assert branches[..k] == branches;
    if producto.marca != "" && !ContainsSub(producto.nombre, producto.marca)
       && producto.modelo != "" && !ContainsSub(producto.nombre, producto.modelo) {
      producto := producto.(nombre := Strip(producto.nombre + " " + producto.marca + " " + producto.modelo));
    }
  }

  // ---------------------------------------------------------------
  // Field rules
  // ---------------------------------------------------------------

  /** A number printed by `str` reads back as itself. */
  lemma PrintedIdReadsBack(item: XmlNode, tag: string, n: nat)
    requires FindText(item, tag) == Some(NatToString(n))
    ensures IdField(item, tag) == Some(n)
  {
    DigitsValueOfNatToString(n);
  }

  /** After the loop over the branches, each branch name holds the stock of its last occurrence. */
  lemma {:induction false} StockTableLastWins(bs: seq<XmlNode>, i: nat)
    requires i < |bs|
    requires forall j :: i < j < |bs| ==> bs[j].tag != bs[i].tag
    ensures Get(StockTable(bs), bs[i].tag) == Some(StockOf(bs[i]))
  {
    if i < |bs| - 1 {
      StockTableLastWins(bs[..|bs| - 1], i);
    }
  }

  /** The branch names of the table are exactly the tags of the branches. */
  lemma {:induction false} StockTableKeys(bs: seq<XmlNode>, name: string)
    ensures HasKey(StockTable(bs), name) <==> exists i :: 0 <= i < |bs| && bs[i].tag == name
  {
    if bs != [] {
      var init := bs[..|bs| - 1];
      StockTableKeys(init, name);
      assert HasKey(StockTable(bs), name) <==> bs[|bs| - 1].tag == name || HasKey(StockTable(init), name) by {
        assert Get(StockTable(bs), name).Some? <==> bs[|bs| - 1].tag == name || Get(StockTable(init), name).Some?;
      }
      if exists i :: 0 <= i < |bs| && bs[i].tag == name {
        var i :| 0 <= i < |bs| && bs[i].tag == name;
        if i < |bs| - 1 { assert init[i].tag == name; }
      }
    }
  }

  /** A leading non-space character at `j` bounds the leading whitespace. */
  lemma {:induction false} LeadingSpacesBefore(s: string, j: nat)
    requires j < |s| && !IsSpace(s[j])
    ensures LeadingSpaces(s) <= j
  {
    if LeadingSpaces(s) > j { LeadingSpacesAreSpaces(s, j); }
  }

  /**
   * When the name is extended, it then holds both the brand and the model
   * (for a brand and a model without surrounding blanks).
   */
  lemma FullNameHoldsBrandAndModel(nombre: string, marca: string, modelo: string)
    requires NeedsBrandAndModel(nombre, marca, modelo)
    requires !IsSpace(marca[0]) && !IsSpace(modelo[|modelo| - 1])
    ensures ContainsSub(FullName(nombre, marca, modelo), marca)
    ensures ContainsSub(FullName(nombre, marca, modelo), modelo)
  {
    var s := nombre + " " + marca + " " + modelo;
    var m := |nombre| + 1;
    assert s[m] == marca[0];
    LeadingSpacesBefore(s, m);
    var a := LeadingSpaces(s);
    assert TrailingStart(s) == |s|;
    var r := Strip(s);
    assert r == s[a..];
    assert OccursAt(r, marca, m - a) by { assert r[m - a..m - a + |marca|] == s[m..m + |marca|] == marca; }
    var q := |s| - |modelo|;
    assert OccursAt(r, modelo, q - a) by { assert r[q - a..] == s[q..] == modelo; }
  }

  /** Extending the name a second time changes nothing. */
  lemma FullNameIdempotent(nombre: string, marca: string, modelo: string)
    requires marca != [] && modelo != [] && !IsSpace(marca[0]) && !IsSpace(modelo[|modelo| - 1])
    ensures FullName(FullName(nombre, marca, modelo), marca, modelo) == FullName(nombre, marca, modelo)
  {
    if NeedsBrandAndModel(nombre, marca, modelo) {
      FullNameHoldsBrandAndModel(nombre, marca, modelo);
    }
  }
}
