/**
 * The non-toner scraping job: which products of the main feed are scraped
 * (not toners, not already in the database), the file-name cleaning used
 * for URL segments, the product URL, and the per-SKU directory layout. The
 * browser, the database and the file system calls are left to oracles.
 */
module DescargaSinToners {
  import opened Common
  import opened FileSystem
  import Tags

  // ---------------------------------------------------------------
  // sanitize_filename
  // ---------------------------------------------------------------

  predicate IsAscii(c: char) { c < '\U{80}' }

  /**
   * `unicodedata.normalize('NFKD', c).encode('ascii', 'ignore')` for one
   * character of the Latin-1 block: an accented letter keeps its base
   * letter, the spacing accents and the no-break space become a space,
   * the ordinal and superscript signs and the vulgar fractions keep their
   * ASCII digits and letters, and every other character is dropped.
   */
  function FoldChar(c: char): (r: string)
    ensures forall i :: 0 <= i < |r| ==> IsAscii(r[i])
    ensures IsAscii(c) ==> r == [c]
  {
    if IsAscii(c) then [c]
    else if '\U{C0}' <= c <= '\U{C5}' then "A"
    else if c == '\U{C7}' then "C"
    else if '\U{C8}' <= c <= '\U{CB}' then "E"
    else if '\U{CC}' <= c <= '\U{CF}' then "I"
    else if c == '\U{D1}' then "N"
    else if '\U{D2}' <= c <= '\U{D6}' then "O"
    else if '\U{D9}' <= c <= '\U{DC}' then "U"
    else if c == '\U{DD}' then "Y"
    else if '\U{E0}' <= c <= '\U{E5}' then "a"
    else if c == '\U{E7}' then "c"
    else if '\U{E8}' <= c <= '\U{EB}' then "e"
    else if '\U{EC}' <= c <= '\U{EF}' then "i"
    else if c == '\U{F1}' then "n"
    else if '\U{F2}' <= c <= '\U{F6}' then "o"
    else if '\U{F9}' <= c <= '\U{FC}' then "u"
    else if c == '\U{FD}' || c == '\U{FF}' then "y"
    else if c == '\U{A0}' || c == '\U{A8}' || c == '\U{AF}' || c == '\U{B4}' || c == '\U{B8}' then " "
    else if c == '\U{AA}' then "a"
    else if c == '\U{BA}' then "o"
    else if c == '\U{B9}' then "1"
    else if c == '\U{B2}' then "2"
    else if c == '\U{B3}' then "3"
    else if c == '\U{BC}' then "14"
    else if c == '\U{BD}' then "12"
    else if c == '\U{BE}' then "34"
    else ""
  }

  /** The ASCII form of a name, character by character. */
  function AsciiFold(s: string): (r: string)
    ensures forall i :: 0 <= i < |r| ==> IsAscii(r[i])
  {
    if s == [] then [] else FoldChar(s[0]) + AsciiFold(s[1..])
  }

  /** `c.isalnum() or c in (' ', '-', '_')` on an ASCII character. */
  predicate NameChar(c: char)
  {
    IsAsciiAlnum(c) || c == ' ' || c == '-' || c == '_'
  }

  function KeepNameChars(s: string): (r: string)
    ensures forall i :: 0 <= i < |r| ==> NameChar(r[i])
  {
    if s == [] then [] else (if NameChar(s[0]) then [s[0]] else []) + KeepNameChars(s[1..])
  }

  /**
   * `sanitize_filename(name)`: the ASCII form, then only letters, digits,
   * ' ', '-' and '_', then trailing whitespace removed (the only whitespace
   * left is the space).
   */
  function SanitizeFilename(name: string): (r: string)
    ensures forall i :: 0 <= i < |r| ==> NameChar(r[i])
    ensures r == [] || r[|r| - 1] != ' '
  {
    RStripChar(KeepNameChars(AsciiFold(name)), ' ')
  }

  lemma {:induction false} AsciiFoldOfAscii(s: string)
    requires forall i :: 0 <= i < |s| ==> IsAscii(s[i])
    ensures AsciiFold(s) == s
  {
    if s != [] {
      AsciiFoldOfAscii(s[1..]);
    }
  }

  lemma {:induction false} KeepNameCharsOfNameChars(s: string)
    requires forall i :: 0 <= i < |s| ==> NameChar(s[i])
    ensures KeepNameChars(s) == s
  {
    if s != [] {
      KeepNameCharsOfNameChars(s[1..]);
    }
  }

  /** Cleaning a cleaned name changes nothing. */
  lemma SanitizeFilenameIdempotent(name: string)
    ensures SanitizeFilename(SanitizeFilename(name)) == SanitizeFilename(name)
  {
    var s := SanitizeFilename(name);
    AsciiFoldOfAscii(s);
    KeepNameCharsOfNameChars(s);
  }

  /** An accented letter keeps its base letter: "Impresión" becomes "Impresion". */
  lemma AccentedLetterKept()
    ensures FoldChar('\U{F3}') == "o" && FoldChar('\U{C9}') == "E"
  {
  }

  // ---------------------------------------------------------------
  // read_json_files and read_and_filter_products
  // ---------------------------------------------------------------

  /** What one listed entry adds: the items of a ".json" file that loads; any error only skips the file. */
  function FileProducts(name: string, e: FileEntry): seq<Json>
  {
    if EndsWith(name, ".json") && e.isFile && e.content.Some? && Iterated(e.content.value).Ok?
    then Iterated(e.content.value).value
    else []
  }

  function DirProducts(d: Dir): seq<Json>
  {
    if d == [] then [] else DirProducts(d[..|d| - 1]) + FileProducts(d[|d| - 1].0, d[|d| - 1].1)
  }

  /** `read_json_files(folder_path)`: a missing folder gives []. */
  function ReadJsonFiles(dir: Option<Dir>): seq<Json>
  {
    if dir.None? then [] else DirProducts(dir.value)
  }

  /** Every product read comes from a ".json" file of the folder. */
  lemma {:induction false} DirProductsFromFiles(d: Dir, x: Json)
    requires x in DirProducts(d)
    ensures exists e :: e in d && EndsWith(e.0, ".json") && x in FileProducts(e.0, e.1)
  {
    var init, last := d[..|d| - 1], d[|d| - 1];
    if x in DirProducts(init) {
      DirProductsFromFiles(init, x);
      var e :| e in init && EndsWith(e.0, ".json") && x in FileProducts(e.0, e.1);
      assert e in d;
    } else {
      assert x in FileProducts(last.0, last.1);
    }
  }

  /**
   * `set([p.get("clave") for p in toners_products if p.get("clave")])`:
   * the truthy claves; a product that is not a dict, or a truthy clave that
   * cannot be hashed, raises.
   */
  function TonerSkus(toners: seq<Json>): (r: Result<set<Json>>)
    ensures r.Ok? ==> forall c :: c in r.value ==> Truthy(c) && exists p :: p in toners && p.JObj? && GetOr(p.fields, "clave", JNull) == c
    ensures r.Ok? ==> forall p :: p in toners && p.JObj? && Truthy(GetOr(p.fields, "clave", JNull)) ==> GetOr(p.fields, "clave", JNull) in r.value
  {
    if toners == [] then Ok({})
    else
      var init, p := toners[..|toners| - 1], toners[|toners| - 1];
      var rest := TonerSkus(init);
      assert forall q :: q in toners <==> q == p || q in init;
      if rest.Err? then rest
      else if !p.JObj? then Err("AttributeError")
      else
        var c := GetOr(p.fields, "clave", JNull);
        if !Truthy(c) then rest
        else if !Hashable(c) then Err("TypeError: unhashable type")
        else Ok(rest.value + {c})
  }

  /** The clave of a product, `product.get("clave")`. */
  function Clave(p: Json): Json
    requires p.JObj?
  {
    GetOr(p.fields, "clave", JNull)
  }

  /** A product the loop keeps: a truthy SKU, not in the database, not a toner. */
  predicate Selected(p: Json, toners: set<Json>, existing: set<Json>)
  {
    p.JObj? && Truthy(Clave(p)) && Clave(p) !in existing && Clave(p) !in toners
  }

  /** A product the loop can look at without raising. */
  predicate Readable(p: Json)
  {
    p.JObj? && (Truthy(Clave(p)) ==> Hashable(Clave(p)))
  }

  /** The loop over the main products, with its `continue` filters. */
  function Filtered(main: seq<Json>, toners: set<Json>, existing: set<Json>): Result<seq<Json>>
  {
    if main == [] then Ok([])
    else
      var rest := Filtered(main[..|main| - 1], toners, existing);
      var p := main[|main| - 1];
      if rest.Err? then rest
      else if !Readable(p) then Err(if p.JObj? then "TypeError: unhashable type" else "AttributeError")
      else if Selected(p, toners, existing) then Ok(rest.value + [p])
      else rest
  }

  /**
   * The loop raises exactly when some main product cannot be read; else it
   * keeps, in order, exactly the selected products.
   */
  lemma {:induction false} FilteredMeaning(main: seq<Json>, toners: set<Json>, existing: set<Json>)
    ensures Filtered(main, toners, existing).Ok? <==> forall p :: p in main ==> Readable(p)
    ensures Filtered(main, toners, existing).Ok? ==>
      && IsSubsequence(Filtered(main, toners, existing).value, main)
      && forall p :: p in Filtered(main, toners, existing).value <==> p in main && Selected(p, toners, existing)
  {
    if main != [] {
      var init, p := main[..|main| - 1], main[|main| - 1];
      FilteredMeaning(init, toners, existing);
      assert forall q :: q in main <==> q == p || q in init;
      var rest := Filtered(init, toners, existing);
      if rest.Ok? && Readable(p) {
        var r := Filtered(main, toners, existing).value;
        if Selected(p, toners, existing) {
          assert r[..|r| - 1] == rest.value;
        }
      }
    }
  }

  /** The filtering loop of `read_and_filter_products`. */
  method FilterProducts(main: seq<Json>, toners: set<Json>, existing: set<Json>) returns (r: Result<seq<Json>>)
    ensures r == Filtered(main, toners, existing)
  {
    var normal: seq<Json> := [];
    var i := 0;
    while i < |main|
      invariant 0 <= i <= |main|
      invariant Filtered(main[..i], toners, existing) == Ok(normal)
    {
      assert main[..i + 1][..i] == main[..i];
      var product := main[i];
      if !product.JObj? {
        FilteredStopsAt(main, toners, existing, i);
        return Err("AttributeError");
      }
      var sku := GetOr(product.fields, "clave", JNull);
      if !Truthy(sku) {
        i := i + 1;
        continue;
      }
      if !Hashable(sku) {
        FilteredStopsAt(main, toners, existing, i);
        return Err("TypeError: unhashable type");
      }
      if sku in existing || sku in toners {
        i := i + 1;
        continue;
      }
      normal := normal + [product];
      i := i + 1;
    }
    assert main[..i] == main;
    r := Ok(normal);
  }

  /** A product that cannot be read ends the whole loop. */
  lemma {:induction false} FilteredStopsAt(main: seq<Json>, toners: set<Json>, existing: set<Json>, i: int)
    requires 0 <= i < |main| && Filtered(main[..i], toners, existing).Ok? && !Readable(main[i])
    ensures Filtered(main, toners, existing) == Filtered(main[..i + 1], toners, existing)
    ensures Filtered(main, toners, existing).Err?
    ensures main[i].JObj? ==> Filtered(main, toners, existing).error == "TypeError: unhashable type"
    ensures !main[i].JObj? ==> Filtered(main, toners, existing).error == "AttributeError"
    decreases |main|
  {
    assert main[..i + 1][..i] == main[..i];
    if i + 1 < |main| {
      var init := main[..|main| - 1];
      assert init[..i] == main[..i] && init[..i + 1] == main[..i + 1] && init[i] == main[i];
      FilteredStopsAt(init, toners, existing, i);
    } else {
      assert main[..i + 1] == main;
    }
  }

  /** `read_and_filter_products(json_main_path, json_toners_path, existing_skus)`. */
  function ReadAndFilterProducts(mainDir: Option<Dir>, tonersDir: Option<Dir>, existing: set<Json>): Result<seq<Json>>
  {
    match TonerSkus(ReadJsonFiles(tonersDir))
    case Err(e) => Err(e)
    case Ok(toners) => Filtered(ReadJsonFiles(mainDir), toners, existing)
  }

  /**
   * A product to scrape is a main-feed product with a truthy clave that is
   * neither in the database nor the clave of any toner product.
   */
  lemma ReadAndFilterMeaning(mainDir: Option<Dir>, tonersDir: Option<Dir>, existing: set<Json>, p: Json)
    requires ReadAndFilterProducts(mainDir, tonersDir, existing).Ok?
    ensures p in ReadAndFilterProducts(mainDir, tonersDir, existing).value <==>
      && p in ReadJsonFiles(mainDir) && p.JObj? && Truthy(Clave(p)) && Clave(p) !in existing
      && forall t :: t in ReadJsonFiles(tonersDir) && t.JObj? ==> GetOr(t.fields, "clave", JNull) != Clave(p)
  {
    var toners := TonerSkus(ReadJsonFiles(tonersDir)).value;
    FilteredMeaning(ReadJsonFiles(mainDir), toners, existing);
  }

  // ---------------------------------------------------------------
  // build_product_url
  // ---------------------------------------------------------------

  /** `product[key]` that must be a string for `sanitize_filename`. */
  function StrField(fields: seq<(string, Json)>, key: string): Option<string>
  {
    var v := Get(fields, key);
    if v.Some? && v.value.JStr? then Some(v.value.s) else None
  }

  /** The cleaned category or subcategory, with spaces turned into '-'. */
  function PathSegment(s: string): (r: string)
    ensures ' ' !in r && '/' !in r
    ensures |r| == |SanitizeFilename(s)|
  {
    Tags.ReplaceChar(SanitizeFilename(s), ' ', '-')
  }

  /** The segments of the URL: the site, the cleaned category, subcategory, brand and SKU, and the id. */
  function UrlSegments(cat: string, sub: string, marca: string, clave: string, id: string): seq<string>
  {
    ["https:", "", "ctonline.mx", PathSegment(cat), PathSegment(sub), SanitizeFilename(marca), SanitizeFilename(clave), id]
  }

  /**
   * `build_product_url(product)`: the f-string
   * `https://ctonline.mx/{cat}/{subcat}/{marca}/{clave}/{idProducto}`,
   * which is the '/'-join of the segments. `str` is Python's `str()` of
   * the `idProducto` value. A missing key raises, and so does cleaning a
   * value that is not a string.
   */
  function BuildProductUrl(fields: seq<(string, Json)>, str: Json -> string): (r: Result<string>)
    ensures r.Ok? <==>
      StrField(fields, "categoria").Some? && StrField(fields, "subcategoria").Some? &&
      StrField(fields, "marca").Some? && StrField(fields, "clave").Some? && HasKey(fields, "idProducto")
  {
    var cat, sub, marca, clave := StrField(fields, "categoria"), StrField(fields, "subcategoria"),
                                  StrField(fields, "marca"), StrField(fields, "clave");
    var id := Get(fields, "idProducto");
    if cat.None? || sub.None? || marca.None? || clave.None? || id.None? then Err("KeyError or TypeError")
    else Ok(Join(UrlSegments(cat.value, sub.value, marca.value, clave.value, str(id.value)), '/'))
  }

  /**
   * The URL splits back into its segments when the id has no '/': the
   * category and subcategory have no space left (spaces became '-'),
   * while the cleaned brand and SKU keep theirs.
   */
  lemma UrlSplitsIntoSegments(fields: seq<(string, Json)>, str: Json -> string)
    requires BuildProductUrl(fields, str).Ok?
    requires '/' !in str(Get(fields, "idProducto").value)
    ensures var segs := UrlSegments(StrField(fields, "categoria").value, StrField(fields, "subcategoria").value,
                                    StrField(fields, "marca").value, StrField(fields, "clave").value,
                                    str(Get(fields, "idProducto").value));
      && Split(BuildProductUrl(fields, str).value, '/') == segs
      && ' ' !in segs[3] && ' ' !in segs[4]
  {
    SegmentsRoundTrip(StrField(fields, "categoria").value, StrField(fields, "subcategoria").value,
                      StrField(fields, "marca").value, StrField(fields, "clave").value,
                      str(Get(fields, "idProducto").value));
  }

  lemma SegmentsRoundTrip(cat: string, sub: string, marca: string, clave: string, id: string)
    requires '/' !in id
    ensures var segs := UrlSegments(cat, sub, marca, clave, id);
      Split(Join(segs, '/'), '/') == segs && ' ' !in segs[3] && ' ' !in segs[4]
  {
    var segs := UrlSegments(cat, sub, marca, clave, id);
    NoSlashInName(segs[5]);
    NoSlashInName(segs[6]);
    SiteHasNoSlash();
    NoSlashInAny(segs);
    SplitJoin(segs, '/');
  }

  lemma NoSlashInAny(segs: seq<string>)
    requires |segs| == 8
    requires '/' !in segs[0] && '/' !in segs[1] && '/' !in segs[2] && '/' !in segs[3]
    requires '/' !in segs[4] && '/' !in segs[5] && '/' !in segs[6] && '/' !in segs[7]
    ensures forall p :: p in segs ==> '/' !in p
  {
  }

  lemma SiteHasNoSlash()
    ensures '/' !in "https:" && '/' !in "ctonline.mx"
  {
  }

  lemma NoSlashInName(s: string)
    requires forall i :: 0 <= i < |s| ==> NameChar(s[i])
    ensures '/' !in s
  {
  }

  // ---------------------------------------------------------------
  // create_directories
  // ---------------------------------------------------------------

  const Subdirectories: seq<string> := ["Caracteristicas", "InformacionAdicional", "JSON", "PDF"]

  /**
   * `create_directories(base_save_path, sku)`: each of the four
   * sub-directories is created under `base/sku`; `mkdirOk` says whether
   * `os.makedirs` succeeds for a path (a failure is only logged). `dirs`
   * is the set of directories that exist.
   */
  method CreateDirectories(dirs: set<string>, base: string, sku: string, mkdirOk: string -> bool)
    returns (dirs': set<string>, skuPath: string)
    ensures skuPath == PathJoin(base, sku)
    ensures forall p :: p in dirs' <==>
      p in dirs || exists sub :: sub in Subdirectories && p == PathJoin(skuPath, sub) && mkdirOk(p)
  {
    skuPath := PathJoin(base, sku);
    dirs' := dirs;
    var i := 0;
    while i < |Subdirectories|
      invariant 0 <= i <= |Subdirectories|
      invariant forall p :: p in dirs' <==>
        p in dirs || exists sub :: sub in Subdirectories[..i] && p == PathJoin(skuPath, sub) && mkdirOk(p)
    {
      var path := PathJoin(skuPath, Subdirectories[i]);
      assert forall sub :: sub in Subdirectories[..i + 1] <==> sub in Subdirectories[..i] || sub == Subdirectories[i];
      if mkdirOk(path) {
        dirs' := dirs' + {path};
      }
      i := i + 1;
    }
    assert Subdirectories[..i] == Subdirectories;
  }
}
