/**
 * The additional-information conversion: the `ficha_tecnica` sections of
 * a product page become sub-accordions of label/value pairs, where green
 * check and red cross icons read "Si" and "No" and an empty value reads
 * "N/A". The run converts each product whose page was read and not yet
 * converted, and marks it converted in `informaciontablas`, so a product
 * is converted at most once.
 */
module ConversionInfoAdicional {
  import opened Common
  import opened Html

  // ---------------------------------------------------------------
  // replace_icons_with_text
  // ---------------------------------------------------------------

  /** An icon that reads as "Si" or "No". */
  predicate Replaceable(x: Inline)
  {
    x.Icon? && (IsCheck(x.classes) || IsTimes(x.classes))
  }

  /** `icon.replace_with(...)`: a check icon becomes "Si", a cross icon "No", anything else stays. */
  function Replaced(x: Inline): Inline
  {
    if x.Icon? && IsCheck(x.classes) then Text("Si")
    else if x.Icon? && IsTimes(x.classes) then Text("No")
    else x
  }

  /** The text of a value `div` once its icons are replaced, its strings stripped and joined with spaces. */
  function IconText(content: seq<Inline>): string
  {
    GetTextSpaced(Strings(Map(content, Replaced)))
  }

  /**
   * `replace_icons_with_text`: nothing for a missing node; otherwise every
   * check or cross icon in the node is replaced in place by its word, and
   * the text is the node's strings, stripped, joined with spaces.
   */
  method ReplaceIconsWithText(div: array?<Inline>) returns (text: string)
    modifies div
    ensures div == null ==> text == []
    ensures div != null ==> div[..] == Map(old(div[..]), Replaced) && text == IconText(old(div[..]))
  {
    if div == null {
      return [];
    }
    ghost var orig := div[..];
    MapAt(orig, Replaced);
    var i := 0;
    while i < div.Length
      invariant i <= div.Length
      invariant forall k :: 0 <= k < i ==> div[k] == Replaced(orig[k])
      invariant forall k :: i <= k < div.Length ==> div[k] == orig[k]
    {
      var icon := div[i];
      if icon.Icon? && IsCheck(icon.classes) {
        div[i] := Text("Si");
      } else if icon.Icon? && IsTimes(icon.classes) {
        div[i] := Text("No");
      }
      i := i + 1;
    }
    assert div[..] == Map(orig, Replaced);
    text := GetTextSpaced(Strings(div[..]));
  }

  /** Replacing leaves no check or cross icon. */
  lemma ReplacedIsFinal(x: Inline)
    ensures !Replaceable(Replaced(x))
    ensures Replaced(Replaced(x)) == Replaced(x)
    ensures Replaceable(x) <==> Replaced(x) != x
  {
  }

  /** After the replacement no check or cross icon is left, and replacing again changes nothing. */
  lemma {:induction false} ReplacingTwiceChangesNothing(content: seq<Inline>)
    ensures Every(Map(content, Replaced), x => !Replaceable(x))
    ensures Map(Map(content, Replaced), Replaced) == Map(content, Replaced)
    ensures IconText(Map(content, Replaced)) == IconText(content)
  {
    forall x: Inline
      ensures !Replaceable(Replaced(x))
    {
      ReplacedIsFinal(x);
    }
    MapEvery(content, Replaced, x => !Replaceable(x));
    if content != [] {
      var init := content[..|content| - 1];
      ReplacingTwiceChangesNothing(init);
      ReplacedIsFinal(content[|content| - 1]);
      var m := Map(content, Replaced);
      assert m[..|m| - 1] == Map(init, Replaced);
    }
  }

  /** The text is stripped, and it is empty exactly when every string of the node, icons replaced, is blank. */
  lemma IconTextShape(content: seq<Inline>)
    ensures Strip(IconText(content)) == IconText(content)
    ensures IconText(content) == [] <==> AllBlank(Strings(Map(content, Replaced)))
  {
    GetTextShape(Strings(Map(content, Replaced)));
  }

  /** A lone check icon reads "Si" and a lone cross icon reads "No", whatever the icon itself holds. */
  lemma LoneIconReads(classes: seq<string>, inner: seq<string>)
    ensures IsCheck(classes) ==> IconText([Icon(classes, inner)]) == "Si"
    ensures !IsCheck(classes) && IsTimes(classes) ==> IconText([Icon(classes, inner)]) == "No"
  {
    OneInlineText(Icon(classes, inner));
    if IsCheck(classes) {
      GetTextOneWord("Si");
    } else if IsTimes(classes) {
      GetTextOneWord("No");
    }
  }

  /** The text of a one-piece content is that of the piece's replacement. */
  lemma OneInlineText(x: Inline)
    ensures IconText([x]) == GetTextSpaced(StringsOf(Replaced(x)))
  {
    assert [x][..0] == [];
    assert Map([x], Replaced) == [Replaced(x)];
    var y := Replaced(x);
    assert [y][..0] == [];
    assert Strings([y]) == StringsOf(y);
  }

  /** A word without spaces joins to itself. */
  lemma GetTextOneWord(s: string)
    requires s == "Si" || s == "No"
    ensures GetTextSpaced([s]) == s
  {
    assert Strip(s) == s;
    assert [s][..0] == [];
    assert Stripped([s]) == [s];
  }

  // ---------------------------------------------------------------
  // parse_section_to_subaccordion
  // ---------------------------------------------------------------

  /** What an empty value reads as. */
  const Missing := "N/A"

  /**
   * One row: skipped with fewer than two direct `div`s, no `<strong>` in
   * the first, or an empty label; otherwise the label and the text of the
   * second, "N/A" when that is empty.
   */
  function RowEntry(r: Row): Option<Entry>
  {
    if |r.cells| < 2 || r.cells[0].strong.None? then None
    else
      var name := Label(r.cells[0].strong.value);
      if name == [] then None
      else
        var value := IconText(r.cells[1].content);
        Some(Entry(name, if value == [] then Missing else value))
  }

  /** A row gives an entry exactly when it has two `div`s and a non-empty label; the entry has a bare label and a value. */
  lemma RowEntryMeaning(r: Row)
    ensures RowEntry(r).Some? <==> |r.cells| >= 2 && r.cells[0].strong.Some? && Label(r.cells[0].strong.value) != []
    ensures RowEntry(r).Some? ==>
              var e := RowEntry(r).value;
              e.name != [] && Bare(e) && e.value != []
              && (e.value == Missing <==> IconText(r.cells[1].content) == [] || IconText(r.cells[1].content) == Missing)
  {
  }

  /** One row of `parse_section_to_subaccordion`, the value `div` as a node the icons are replaced in. */
  method RowToEntry(r: Row) returns (e: Option<Entry>)
    ensures e == RowEntry(r)
  {
    if |r.cells| < 2 || r.cells[0].strong.None? {
      return None;
    }
    var name := Label(r.cells[0].strong.value);
    if name == [] {
      return None;
    }
    var content := r.cells[1].content;
    var div := new Inline[|content|](k requires 0 <= k < |content| => content[k]);
    assert div[..] == content;
    var value := ReplaceIconsWithText(div);
    if value == [] {
      value := Missing;
    }
    e := Some(Entry(name, value));
  }

  /**
   * One `col-sm-6` column: skipped without an `<h5>`, with an empty title,
   * with no rows, or when no row gives an entry; otherwise a block titled
   * with the `<h5>` text.
   */
  function ColumnBlock(c: Column): Option<Block>
  {
    if c.h5.None? then None
    else
      var title := GetText(c.h5.value);
      if title == [] || c.rows == [] then None
      else
        var entries := FilterMap(c.rows, RowEntry);
        if entries == [] then None else Some(Block(title, entries))
  }

  /** A column gives a block exactly when it has a non-empty title and some row gives an entry; the block holds those entries. */
  lemma ColumnBlockMeaning(c: Column)
    ensures ColumnBlock(c).Some? <==>
              c.h5.Some? && GetText(c.h5.value) != [] && FilterMap(c.rows, RowEntry) != []
    ensures ColumnBlock(c).Some? ==>
              ColumnBlock(c).value.title == GetText(c.h5.value)
              && ColumnBlock(c).value.entries == FilterMap(c.rows, RowEntry)
  {
    if c.rows == [] {
      assert FilterMap(c.rows, RowEntry) == [];
    }
  }

  /** The entries of a column's rows. */
  method ColumnEntries(rows: seq<Row>) returns (entries: seq<Entry>)
    ensures entries == FilterMap(rows, RowEntry)
  {
    entries := [];
    var i := 0;
    while i < |rows|
      invariant i <= |rows|
      invariant entries == FilterMap(rows[..i], RowEntry)
    {
      FilterMapStep(rows, i, RowEntry);
      var e := RowToEntry(rows[i]);
      if e.Some? {
        entries := entries + [e.value];
      }
      i := i + 1;
    }
    TakeAll(rows);
  }

  /** A `ficha_tecnica` section, as its `col-sm-6` columns. */
  type Ficha = seq<Column>

  /** The blocks of one section, columns that give none left out. */
  function SectionBlocks(f: Ficha): seq<Block>
  {
    FilterMap(f, ColumnBlock)
  }

  /** `parse_section_to_subaccordion`. */
  method ParseSectionToSubaccordion(f: Ficha) returns (blocks: seq<Block>)
    ensures blocks == SectionBlocks(f)
  {
    blocks := [];
    var i := 0;
    while i < |f|
      invariant i <= |f|
      invariant blocks == FilterMap(f[..i], ColumnBlock)
    {
      FilterMapStep(f, i, ColumnBlock);
      var c := f[i];
      if c.h5.Some? {
        var title := GetText(c.h5.value);
        if title != [] && c.rows != [] {
          var entries := ColumnEntries(c.rows);
          if entries != [] {
            blocks := blocks + [Block(title, entries)];
          }
        }
      }
      i := i + 1;
    }
    TakeAll(f);
  }

  /** The blocks of a page: nothing when it cannot be read or parsed, otherwise those of each section in order. */
  function HtmlBlocks(doc: Result<seq<Ficha>>): seq<Block>
  {
    if doc.Err? then [] else FlatMap(doc.value, SectionBlocks)
  }

  /** `process_html_file`. */
  method ProcessHtmlFile(doc: Result<seq<Ficha>>) returns (blocks: seq<Block>)
    ensures blocks == HtmlBlocks(doc)
  {
    if doc.Err? || doc.value == [] {
      return [];
    }
    var fichas := doc.value;
    blocks := [];
    var i := 0;
    while i < |fichas|
      invariant i <= |fichas|
      invariant blocks == FlatMap(fichas[..i], SectionBlocks)
    {
      FlatMapStep(fichas, i, SectionBlocks);
      var b := ParseSectionToSubaccordion(fichas[i]);
      blocks := blocks + b;
      i := i + 1;
    }
    TakeAll(fichas);
  }

  /** A block as the page shows it: a non-empty title, and entries each with a bare, non-empty label and a value. */
  predicate Filled(b: Block)
  {
    b.title != [] && b.entries != [] && Every(b.entries, Full)
  }

  /** An entry with a bare, non-empty label and a non-empty value. */
  predicate Full(e: Entry)
  {
    e.name != [] && Bare(e) && e.value != []
  }

  /** Every entry a list of rows gives is full. */
  lemma {:induction false} RowsFull(rows: seq<Row>)
    ensures Every(FilterMap(rows, RowEntry), Full)
  {
    if rows != [] {
      var init := rows[..|rows| - 1];
      RowsFull(init);
      RowEntryMeaning(rows[|rows| - 1]);
      var last := RowEntry(rows[|rows| - 1]);
      if last.Some? {
        assert Every([last.value], Full) by {
          assert [last.value][..0] == [];
        }
        EveryAppend(FilterMap(init, RowEntry), [last.value], Full);
      } else {
        assert FilterMap(rows, RowEntry) == FilterMap(init, RowEntry);
      }
    }
  }

  /** Every block a column gives is filled. */
  lemma ColumnFilled(c: Column)
    ensures ColumnBlock(c).Some? ==> Filled(ColumnBlock(c).value)
  {
    RowsFull(c.rows);
  }

  /** Every block a list of columns gives is filled. */
  lemma {:induction false} ColumnsFilled(f: Ficha)
    ensures Every(SectionBlocks(f), Filled)
  {
    if f != [] {
      var init := f[..|f| - 1];
      ColumnsFilled(init);
      ColumnFilled(f[|f| - 1]);
      var last := ColumnBlock(f[|f| - 1]);
      if last.Some? {
        assert Every([last.value], Filled) by {
          assert [last.value][..0] == [];
        }
        EveryAppend(FilterMap(init, ColumnBlock), [last.value], Filled);
      } else {
        assert SectionBlocks(f) == SectionBlocks(init);
      }
    }
  }

  /** Every block of every section is filled. */
  lemma {:induction false} FichasFilled(fichas: seq<Ficha>)
    ensures Every(FlatMap(fichas, SectionBlocks), Filled)
  {
    if fichas != [] {
      var init := fichas[..|fichas| - 1];
      FichasFilled(init);
      ColumnsFilled(fichas[|fichas| - 1]);
      EveryAppend(FlatMap(init, SectionBlocks), SectionBlocks(fichas[|fichas| - 1]), Filled);
    }
  }

  /**
   * Each sub-accordion of a page has a title and at least one entry, and
   * each entry a non-empty label without trailing colon and a non-empty
   * value; a page that cannot be read, or has no `ficha_tecnica` section,
   * gives none.
   */
  lemma PageBlocksFilled(doc: Result<seq<Ficha>>)
    ensures forall k :: 0 <= k < |HtmlBlocks(doc)| ==> Filled(HtmlBlocks(doc)[k])
    ensures (doc.Err? || doc.value == []) ==> HtmlBlocks(doc) == []
  {
    if doc.Ok? {
      FichasFilled(doc.value);
      EveryMeans(HtmlBlocks(doc), Filled);
    }
  }

  // ---------------------------------------------------------------
  // main
  // ---------------------------------------------------------------

  /** A product of the JSON files, as its fields in order. */
  type Product = seq<(string, Json)>

  /**
   * The flags of a record of `informaciontablas` the run reads and sets:
   * whether the additional information was read, and whether it was
   * converted.
   */
  datatype Registro = Registro(leido: bool, convertido: bool)

  /** Read and not yet converted. */
  predicate Eligible(r: Registro)
  {
    r.leido && !r.convertido
  }

  /**
   * What the run meets besides the page parser: the names in the
   * `InformacionAdicional` folder of a SKU (`None` when it is not a
   * folder), a page as parsed, whether loading the template, rendering
   * and saving the result succeed, and whether the database commits the
   * write to `informacionadicional` and the update of `informaciontablas`
   * (a refused write is logged and rolled back).
   */
  datatype World = World(
    folder: string -> Option<seq<string>>,
    doc: (string, string) -> Result<seq<Ficha>>,
    written: string -> bool,
    adicionalOk: string -> bool,
    tablaOk: string -> bool)

  /** Every update of `informaciontablas` commits. */
  ghost predicate AllCommitted(w: World)
  {
    forall s :: w.tablaOk(s)
  }

  /** The three counters of the summary. */
  datatype Tally = Tally(total: nat, procesada: nat, convertida: nat)

  /** The counters, the records of `informaciontablas`, and the SKUs `informacionadicional` holds, as the run goes. */
  datatype State = State(t: Tally, db: map<string, Registro>, adicional: set<string>)

  /** `f.lower().endswith('.html')`. */
  function HtmlName(f: string): Option<string>
  {
    if EndsWith(Lower(f), ".html") then Some(f) else None
  }

  /** The HTML files of a folder listing, in listing order. */
  function HtmlFiles(names: seq<string>): seq<string>
  {
    FilterMap(names, HtmlName)
  }

  /** The HTML files are exactly the names ending in `.html`, whatever the case. */
  lemma HtmlFilesMeaning(names: seq<string>)
    ensures forall f :: f in HtmlFiles(names) <==> f in names && EndsWith(Lower(f), ".html")
  {
    FilterMapMembers(names, HtmlName);
    forall f | f in names && EndsWith(Lower(f), ".html")
      ensures f in HtmlFiles(names)
    {
      var i :| 0 <= i < |names| && names[i] == f;
      assert HtmlName(names[i]) == Some(f);
    }
  }

  /**
   * One product. It is skipped when its `clave` is falsy, is not one of
   * the existing SKUs, has no record, or its record is not awaiting
   * conversion; when its folder is missing or holds no HTML file; and
   * when the template cannot be loaded, rendered or saved. A first HTML
   * file that gives no sub-accordion counts as processed only. Otherwise
   * all three counters move, `informacionadicional` holds the SKU if that
   * write commits, and the record is marked converted if its update
   * commits.
   */
  function Handle(w: World, existentes: seq<string>, st: State, p: Product): State
  {
    var sku := GetOr(p, "clave", JNull);
    if !Truthy(sku) || !(sku.JStr? && sku.s in existentes) then st
    else
      var s := sku.s;
      if s !in st.db || !Eligible(st.db[s]) then st
      else if w.folder(s).None? then st
      else
        var html := HtmlFiles(w.folder(s).value);
        if html == [] then st
        else if HtmlBlocks(w.doc(s, html[0])) == [] then st.(t := st.t.(procesada := st.t.procesada + 1))
        else if !w.written(s) then st
        else
          State(Tally(st.t.total + 1, st.t.procesada + 1, st.t.convertida + 1),
                if w.tablaOk(s) then st.db[s := st.db[s].(convertido := true)] else st.db,
                if w.adicionalOk(s) then st.adicional + {s} else st.adicional)
  }

  /** The state after the first `n` products. */
  function RunOf(w: World, existentes: seq<string>, productos: seq<Product>, n: nat, st0: State): State
    requires n <= |productos|
  {
    if n == 0 then st0 else Handle(w, existentes, RunOf(w, existentes, productos, n - 1, st0), productos[n - 1])
  }

  /** No products: nothing is done and no report is written; otherwise the state after all of them, from zero counters. */
  function Convert(w: World, existentes: seq<string>, productos: seq<Product>, db: map<string, Registro>, adicional: set<string>): Option<State>
  {
    if productos == [] then None
    else Some(RunOf(w, existentes, productos, |productos|, State(Tally(0, 0, 0), db, adicional)))
  }

  /** One product of the loop of `main`. */
  method HandleProduct(w: World, existentes: seq<string>, st: State, p: Product) returns (r: State)
    ensures r == Handle(w, existentes, st, p)
  {
    r := st;
    var sku := GetOr(p, "clave", JNull);
    if !Truthy(sku) {
      return;
    }
    if !(sku.JStr? && sku.s in existentes) {
      return;
    }
    var s := sku.s;
    if s !in st.db {
      return;
    }
    var registro := st.db[s];
    if registro.leido && !registro.convertido {
      var folder := w.folder(s);
      if folder.None? {
        return;
      }
      var html := HtmlFiles(folder.value);
      if html == [] {
        return;
      }
      var subaccordions := ProcessHtmlFile(w.doc(s, html[0]));
      if subaccordions != [] {
        if !w.written(s) {
          return;
        }
        var adicional := st.adicional;
        if w.adicionalOk(s) {
          adicional := adicional + {s};
        }
        var db := st.db;
        if w.tablaOk(s) {
          db := db[s := registro.(convertido := true)];
        }
        var t := st.t;
        r := State(Tally(t.total + 1, t.procesada + 1, t.convertida + 1), db, adicional);
      } else {
        r := st.(t := st.t.(procesada := st.t.procesada + 1));
      }
    }
  }

  /** `main`, up to the reports it writes from the final state. */
  method ProcessProducts(w: World, existentes: seq<string>, productos: seq<Product>, db: map<string, Registro>, adicional: set<string>)
    returns (r: Option<State>)
    ensures r == Convert(w, existentes, productos, db, adicional)
  {
    if productos == [] {
      return None;
    }
    var st := State(Tally(0, 0, 0), db, adicional);
    var i := 0;
    while i < |productos|
      invariant i <= |productos|
      invariant st == RunOf(w, existentes, productos, i, State(Tally(0, 0, 0), db, adicional))
    {
      st := HandleProduct(w, existentes, st, productos[i]);
      i := i + 1;
    }
    r := Some(st);
  }

  /** The SKUs whose record is awaiting conversion. */
  function Awaiting(db: map<string, Registro>): set<string>
  {
    set s | s in db && Eligible(db[s])
  }

  /** Converting an awaiting SKU takes exactly it out of the awaiting ones. */
  lemma ConvertingOne(db: map<string, Registro>, s: string)
    requires s in db && Eligible(db[s])
    ensures Awaiting(db[s := db[s].(convertido := true)]) == Awaiting(db) - {s}
    ensures |Awaiting(db[s := db[s].(convertido := true)])| == |Awaiting(db)| - 1
  {
    var db' := db[s := db[s].(convertido := true)];
    assert Awaiting(db') == Awaiting(db) - {s};
  }

  /**
   * What the run keeps: `total == convertida <= procesada <= n`; the
   * records keep their SKUs and their read flags; a record is only ever
   * set converted; a SKU leaves the awaiting ones only through a
   * conversion, and when every update commits each conversion takes
   * exactly one SKU out of them, so no SKU is converted twice; and every
   * SKU newly held by `informacionadicional` is converted in
   * `informaciontablas` unless its update was refused.
   */
  ghost predicate Kept(w: World, st0: State, st: State, n: nat)
  {
    st.t.total == st.t.convertida <= st.t.procesada <= n + st0.t.procesada
    && st0.t.convertida <= st.t.convertida
    && st.t.total - st0.t.total == st.t.convertida - st0.t.convertida
    && st.db.Keys == st0.db.Keys
    && (forall s :: s in st.db ==> st.db[s].leido == st0.db[s].leido && (st0.db[s].convertido ==> st.db[s].convertido))
    && Awaiting(st.db) <= Awaiting(st0.db)
    && |Awaiting(st0.db)| <= st.t.convertida - st0.t.convertida + |Awaiting(st.db)|
    && (AllCommitted(w) ==> st.t.convertida - st0.t.convertida + |Awaiting(st.db)| == |Awaiting(st0.db)|)
    && (forall s :: s in st.adicional && s !in st0.adicional ==> s in st.db && (w.tablaOk(s) ==> st.db[s].convertido))
    && st0.adicional <= st.adicional
  }

  /** One product keeps what the run keeps. */
  lemma HandleKeeps(w: World, existentes: seq<string>, st0: State, st: State, p: Product, n: nat)
    requires st0.t.total == st0.t.convertida
    requires Kept(w, st0, st, n)
    ensures Kept(w, st0, Handle(w, existentes, st, p), n + 1)
  {
    var r := Handle(w, existentes, st, p);
    if r.db != st.db {
      var sku := GetOr(p, "clave", JNull);
      ConvertingOne(st.db, sku.s);
    }
  }

  lemma {:induction false} RunKeeps(w: World, existentes: seq<string>, productos: seq<Product>, n: nat, st0: State)
    requires n <= |productos|
    requires st0.t.total == st0.t.convertida <= st0.t.procesada
    ensures Kept(w, st0, RunOf(w, existentes, productos, n, st0), n)
  {
    if n > 0 {
      RunKeeps(w, existentes, productos, n - 1, st0);
      HandleKeeps(w, existentes, st0, RunOf(w, existentes, productos, n - 1, st0), productos[n - 1], n - 1);
    }
  }

  /**
   * The summary `main` writes: `total == convertida <= procesada`, no more
   * processed than products, and every SKU that left the awaiting ones
   * counted as converted; when every update commits, no more converted
   * than records awaiting conversion at the start, each of which the run
   * takes out of waiting once. The records keep their SKUs and read flags.
   */
  lemma SummaryConsistent(w: World, existentes: seq<string>, productos: seq<Product>, db: map<string, Registro>, adicional: set<string>)
    ensures Convert(w, existentes, productos, db, adicional).None? <==> productos == []
    ensures Convert(w, existentes, productos, db, adicional).Some? ==>
              var st := Convert(w, existentes, productos, db, adicional).value;
              st.t.total == st.t.convertida <= st.t.procesada <= |productos|
              && |Awaiting(db)| <= st.t.convertida + |Awaiting(st.db)|
              && (AllCommitted(w) ==> st.t.convertida + |Awaiting(st.db)| == |Awaiting(db)| && st.t.convertida <= |Awaiting(db)|)
              && st.db.Keys == db.Keys
              && forall s :: s in db && !Eligible(db[s]) ==> st.db[s] == db[s]
  {
    if productos != [] {
      var st0 := State(Tally(0, 0, 0), db, adicional);
      RunKeeps(w, existentes, productos, |productos|, st0);
      var st := RunOf(w, existentes, productos, |productos|, st0);
      forall s | s in db && !Eligible(db[s])
        ensures st.db[s] == db[s]
      {
        RunLeavesSettled(w, existentes, productos, |productos|, st0, s);
      }
    }
  }

  /** A record that is not awaiting conversion is never touched. */
  lemma {:induction false} RunLeavesSettled(w: World, existentes: seq<string>, productos: seq<Product>, n: nat, st0: State, s: string)
    requires n <= |productos|
    requires s in st0.db && !Eligible(st0.db[s])
    ensures s in RunOf(w, existentes, productos, n, st0).db
    ensures RunOf(w, existentes, productos, n, st0).db[s] == st0.db[s]
  {
    if n > 0 {
      RunLeavesSettled(w, existentes, productos, n - 1, st0, s);
    }
  }

  /**
   * A product listed twice is converted once when its update commits: the
   * first conversion marks its record, and the second finds it settled.
   */
  lemma ConvertedOnlyOnce(w: World, existentes: seq<string>, st: State, p: Product)
    requires Handle(w, existentes, st, p).t.convertida == st.t.convertida + 1
    requires GetOr(p, "clave", JNull).JStr? && w.tablaOk(GetOr(p, "clave", JNull).s)
    ensures var st' := Handle(w, existentes, st, p);
            Handle(w, existentes, st', p).t.convertida == st'.t.convertida
            && Handle(w, existentes, st', p).db == st'.db
  {
  }

  /**
   * When the update of `informaciontablas` is refused, the record stays
   * awaiting, so the same product listed again is converted and counted
   * again.
   */
  lemma RefusedUpdateConvertsAgain(w: World, existentes: seq<string>, st: State, p: Product)
    requires Handle(w, existentes, st, p).t.convertida == st.t.convertida + 1
    requires GetOr(p, "clave", JNull).JStr? && !w.tablaOk(GetOr(p, "clave", JNull).s)
    ensures var st' := Handle(w, existentes, st, p);
            Handle(w, existentes, st', p).t.convertida == st'.t.convertida + 1
            && st'.db == st.db
  {
  }
}
