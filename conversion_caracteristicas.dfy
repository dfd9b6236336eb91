/**
 * `Conversion_Caracteristicas_1.2.py`: the "Características" page scraped
 * for a product is turned into sub-accordions, one `<dt>`/`<dd>` list per
 * heading, and `process_all_products` keeps count of the SKUs it converts.
 *
 * A page is a list of `div.panel-body` sections. A section either holds
 * spec-sheet tables (`div#ficha_tecnica.ct-section`, one block each) or a
 * run of `<h5>` headings and `<p>` paragraphs whose `<strong>` labels are
 * followed by their values. The rendered markup of a block is left to a
 * template; a list of blocks renders to non-blank text exactly when it is
 * not empty, which is what the `subaccordions.strip()` test observes.
 */
module ConversionCaracteristicas {
  import opened Common
  import opened Html

  // ---------------------------------------------------------------
  // Titles and icons
  // ---------------------------------------------------------------

  /**
   * `to_sentence_case`: the empty text unchanged, otherwise its first
   * character upper-cased and the rest lower-cased (over Latin-1 this is
   * what `Capitalize` computes).
   */
  function ToSentenceCase(text: string): string
  {
    Capitalize(text)
  }

  /** The shape of a sentence-case title: same length, first character upper-cased, the rest lower-cased. */
  lemma SentenceCaseShape(text: string)
    ensures |ToSentenceCase(text)| == |text|
    ensures text == [] ==> ToSentenceCase(text) == []
    ensures text != [] ==> ToSentenceCase(text)[0] == UpperChar(text[0])
    ensures forall i :: 0 < i < |text| ==> ToSentenceCase(text)[i] == LowerChar(text[i])
  {
  }

  /** A title already in sentence case stays as it is. */
  lemma SentenceCaseIdempotent(text: string)
    ensures ToSentenceCase(ToSentenceCase(text)) == ToSentenceCase(text)
  {
    CapitalizeIdempotent(text);
  }

  /** The position of the first `<i>` in document order (`value_div.find('i')`), or the length when there is none. */
  function FirstIconAt(items: seq<Inline>): (k: nat)
    ensures k <= |items|
    ensures forall j :: 0 <= j < k ==> items[j].Text?
    ensures k < |items| ==> items[k].Icon?
  {
    if items == [] || items[0].Icon? then 0 else 1 + FirstIconAt(items[1..])
  }

  /**
   * `replace_icons_with_text`: "Sí" when the first icon of the value is a
   * green check, "No" when it is a red cross, otherwise the stripped text
   * of the value.
   */
  function ReplaceIcons(content: seq<Inline>): string
  {
    var k := FirstIconAt(content);
    if k < |content| && IsCheck(content[k].classes) then "Sí"
    else if k < |content| && IsTimes(content[k].classes) then "No"
    else GetText(Strings(content))
  }

  /**
   * Only the first icon decides: a green check gives "Sí", a red cross
   * "No", any other icon, or none at all, the text of the value.
   */
  lemma ReplaceIconsMeaning(content: seq<Inline>, i: nat)
    requires i <= |content|
    requires forall j :: 0 <= j < i ==> content[j].Text?
    requires i < |content| ==> content[i].Icon?
    ensures i < |content| && IsCheck(content[i].classes) ==> ReplaceIcons(content) == "Sí"
    ensures i < |content| && !IsCheck(content[i].classes) && IsTimes(content[i].classes) ==> ReplaceIcons(content) == "No"
    ensures (i == |content| || (!IsCheck(content[i].classes) && !IsTimes(content[i].classes))) ==>
              ReplaceIcons(content) == GetText(Strings(content))
  {
    assert FirstIconAt(content) == i;
  }

  /** The value written for a table cell never has surrounding whitespace. */
  lemma ReplaceIconsStripped(content: seq<Inline>)
    ensures Strip(ReplaceIcons(content)) == ReplaceIcons(content)
  {
    var k := FirstIconAt(content);
    if k < |content| && IsCheck(content[k].classes) {
      StripUnchanged("Sí");
    } else if k < |content| && IsTimes(content[k].classes) {
      StripUnchanged("No");
    } else {
      GetTextShape(Strings(content));
    }
  }

  // ---------------------------------------------------------------
  // Paragraph sections
  // ---------------------------------------------------------------

  /** A node after a `<strong>` inside its paragraph. */
  datatype Sibling = SibText(s: string) | SibBr | SibTag

  /** A `<strong>` of a paragraph: its strings and the siblings that follow it. */
  datatype Strong = Strong(text: seq<string>, after: seq<Sibling>)

  /** A direct `<h5>` or `<p>` child of a section, in order. */
  datatype Element =
    | H5(strong: Option<seq<string>>)
    | P(strongs: seq<Strong>, strings: seq<string>)

  /** Whether the value of a `<strong>` goes on past this sibling: a non-empty text node or a `<br>`. */
  predicate Continues(x: Sibling)
  {
    x.SibBr? || (x.SibText? && x.s != [])
  }

  /** What a sibling adds to the value: its text stripped, or a space for a `<br>`. */
  function Piece(x: Sibling): string
  {
    match x
    case SibText(s) => Strip(s)
    case SibBr => " "
    case SibTag => []
  }

  /** The value of the first `n` siblings. */
  function RawValue(after: seq<Sibling>, n: nat): string
    requires n <= |after|
  {
    if n == 0 then [] else RawValue(after, n - 1) + Piece(after[n - 1])
  }

  /** How many siblings the value takes in: up to the first other tag or empty text node. */
  function ValueRun(after: seq<Sibling>): (n: nat)
    ensures n <= |after|
    ensures forall j :: 0 <= j < n ==> Continues(after[j])
    ensures n < |after| ==> !Continues(after[n])
  {
    if after == [] || !Continues(after[0]) then 0 else 1 + ValueRun(after[1..])
  }

  /**
   * The entry of a `<strong>`: its label, and the value gathered after it,
   * taken as one text node and passed through `replace_icons_with_text`
   * (the second html.parser pass over that text is not modelled).
   */
  function StrongEntry(st: Strong): Entry
  {
    Entry(Label(st.text), ReplaceIcons([Text(RawValue(st.after, ValueRun(st.after)))]))
  }

  /** The value of a `<strong>` is the text gathered after it, stripped. */
  lemma StrongValueIsStripped(st: Strong)
    ensures StrongEntry(st).value == Strip(RawValue(st.after, ValueRun(st.after)))
  {
    var raw := RawValue(st.after, ValueRun(st.after));
    assert [Text(raw)][..0] == [];
    assert Strings([Text(raw)]) == [raw];
    GetTextOne(raw);
  }

  /** `while next_sibling and ...`: the value text after a `<strong>`. */
  method CollectValue(after: seq<Sibling>) returns (value: string)
    ensures value == RawValue(after, ValueRun(after))
  {
    value := [];
    var i := 0;
    while i < |after| && Continues(after[i])
      invariant i <= |after|
      invariant forall j :: 0 <= j < i ==> Continues(after[j])
      invariant value == RawValue(after, i)
    {
      value := value + Piece(after[i]);
      i := i + 1;
    }
    assert i == ValueRun(after);
  }

  /** The entries of the `<strong>`s of a titled paragraph, in order. */
  function StrongEntries(strongs: seq<Strong>): seq<Entry>
  {
    Map(strongs, StrongEntry)
  }

  /** The body of that loop: the label of a `<strong>` and the value after it. */
  method StrongToEntry(st: Strong) returns (e: Entry)
    ensures e == StrongEntry(st)
  {
    var value := CollectValue(st.after);
    e := Entry(Label(st.text), ReplaceIcons([Text(value)]));
  }

  /** The `for strong in elem.find_all('strong')` loop of a titled paragraph. */
  method ParagraphEntries(strongs: seq<Strong>) returns (entries: seq<Entry>)
    ensures entries == StrongEntries(strongs)
  {
    entries := [];
    var i := 0;
    while i < |strongs|
      invariant i <= |strongs|
      invariant entries == Map(strongs[..i], StrongEntry)
    {
      MapStep(strongs, i, StrongEntry);
      var e := StrongToEntry(strongs[i]);
      entries := entries + [e];
      i := i + 1;
    }
    TakeAll(strongs);
  }

  /** What `parse_paragraph_section` reads from one element. */
  datatype Event =
    | Heading(title: Option<string>)
    | Para(labelled: seq<Entry>, text: string)

  /**
   * An `<h5>` gives the sentence-case text of its `<strong>`, if it has
   * one; a `<p>` gives the entries of its `<strong>`s and its whole text,
   * joined with spaces.
   */
  function EventOf(e: Element): Event
  {
    match e
    case H5(strong) => Heading(if strong.Some? then Some(ToSentenceCase(GetText(strong.value))) else None)
    case P(strongs, strings) => Para(StrongEntries(strongs), GetTextSpaced(strings))
  }

  /** The state of `parse_paragraph_section` between two elements. */
  datatype Paragraphs = Paragraphs(title: string, dl: seq<Entry>, out: seq<Block>)

  /** No title (`None` and `""` are both falsy), no entries, no blocks. */
  const Start := Paragraphs([], [], [])

  /**
   * The entries a paragraph adds: its labelled entries under a title,
   * otherwise its text as an "Acerca de" entry when there is any; a
   * heading adds none.
   */
  function Added(title: string, ev: Event): seq<Entry>
  {
    match ev
    case Heading(_) => []
    case Para(labelled, text) =>
      if title != [] then labelled
      else if text != [] then [Entry("Acerca de", text)]
      else []
  }

  /** Emits the block in progress when it has both a title and entries. */
  function Close(st: Paragraphs): Paragraphs
  {
    if st.title != [] && st.dl != [] then Paragraphs(st.title, [], st.out + [Block(st.title, st.dl)]) else st
  }

  /** One element of `parse_paragraph_section`; an untitled paragraph with text names its block "Características". */
  function Step(st: Paragraphs, ev: Event): Paragraphs
  {
    match ev
    case Heading(t) =>
      var closed := Close(st);
      if t.Some? then closed.(title := t.value) else closed
    case Para(_, _) =>
      var add := Added(st.title, ev);
      Paragraphs(if st.title == [] && add != [] then "Características" else st.title, st.dl + add, st.out)
  }

  /** The state after the first `n` events. */
  function Walk(events: seq<Event>, n: nat): Paragraphs
    requires n <= |events|
  {
    if n == 0 then Start else Step(Walk(events, n - 1), events[n - 1])
  }

  /** The blocks `parse_paragraph_section` emits. */
  function ParseParagraph(elements: seq<Element>): seq<Block>
  {
    var events := Map(elements, EventOf);
    Close(Walk(events, |events|)).out
  }

  /** One element of `parse_paragraph_section`, on its three variables. */
  method ElementStep(title: string, dl: seq<Entry>, blocks: seq<Block>, e: Element)
    returns (title': string, dl': seq<Entry>, blocks': seq<Block>)
    ensures Paragraphs(title', dl', blocks') == Step(Paragraphs(title, dl, blocks), EventOf(e))
  {
    title', dl', blocks' := title, dl, blocks;
    match e {
      case H5(strong) =>
        if title != [] && dl != [] {
          blocks' := blocks + [Block(title, dl)];
          dl' := [];
        }
        if strong.Some? {
          title' := ToSentenceCase(GetText(strong.value));
        }
      case P(strongs, strings) =>
        if title != [] {
          var entries := ParagraphEntries(strongs);
          dl' := dl + entries;
        } else {
          var content := GetTextSpaced(strings);
          if content != [] {
            title' := "Características";
            dl' := dl + [Entry("Acerca de", content)];
          } else {
            AppendNothing(dl);
          }
        }
    }
  }

  /** `parse_paragraph_section`. */
  method ParseParagraphSection(elements: seq<Element>) returns (blocks: seq<Block>)
    ensures blocks == ParseParagraph(elements)
  {
    ghost var events := Map(elements, EventOf);
    MapAt(elements, EventOf);
    var title: string := [];
    var dl: seq<Entry> := [];
    blocks := [];
    var i := 0;
    while i < |elements|
      invariant i <= |elements|
      invariant Paragraphs(title, dl, blocks) == Walk(events, i)
    {
      title, dl, blocks := ElementStep(title, dl, blocks, elements[i]);
      assert events[i] == EventOf(elements[i]);
      i := i + 1;
    }
    if title != [] && dl != [] {
      blocks := blocks + [Block(title, dl)];
    }
  }

  /** Open entries always have a title, and every emitted block has a title and at least one entry. */
  predicate Sound(st: Paragraphs)
  {
    (st.dl != [] ==> st.title != [])
    && forall k :: 0 <= k < |st.out| ==> st.out[k].title != [] && st.out[k].entries != []
  }

  /** Each element keeps the state sound. */
  lemma StepSound(st: Paragraphs, ev: Event)
    requires Sound(st)
    ensures Sound(Step(st, ev))
  {
  }

  lemma {:induction false} WalkSound(events: seq<Event>, n: nat)
    requires n <= |events|
    ensures Sound(Walk(events, n))
  {
    if n > 0 {
      WalkSound(events, n - 1);
      StepSound(Walk(events, n - 1), events[n - 1]);
    }
  }

  /** Every block of a paragraph section has a title and at least one entry. */
  lemma ParagraphBlocksFilled(elements: seq<Element>)
    ensures forall k :: 0 <= k < |ParseParagraph(elements)| ==>
              ParseParagraph(elements)[k].title != [] && ParseParagraph(elements)[k].entries != []
  {
    var events := Map(elements, EventOf);
    WalkSound(events, |events|);
  }

  /** Every entry the first `n` events add, in order, whichever block it lands in. */
  function Gathered(events: seq<Event>, n: nat): seq<Entry>
    requires n <= |events|
  {
    if n == 0 then [] else Gathered(events, n - 1) + Added(Walk(events, n - 1).title, events[n - 1])
  }

  /** An element moves entries into blocks or adds new ones, never drops one. */
  lemma StepKeepsEntries(st: Paragraphs, ev: Event)
    ensures Entries(Step(st, ev).out) + Step(st, ev).dl == Entries(st.out) + st.dl + Added(st.title, ev)
  {
    if ev.Heading? && st.title != [] && st.dl != [] {
      SnocTake(st.out, Block(st.title, st.dl));
      AppendNothing(Entries(st.out) + st.dl);
    } else if ev.Heading? {
      AppendNothing(st.dl);
      AppendNothing(Entries(st.out) + st.dl);
    } else {
      AppendAssoc(Entries(st.out), st.dl, Added(st.title, ev));
    }
  }

  lemma {:induction false} WalkKeepsEntries(events: seq<Event>, n: nat)
    requires n <= |events|
    ensures Entries(Walk(events, n).out) + Walk(events, n).dl == Gathered(events, n)
  {
    if n > 0 {
      WalkKeepsEntries(events, n - 1);
      StepKeepsEntries(Walk(events, n - 1), events[n - 1]);
    }
  }

  /** The labelled entries of a paragraph have bare labels. */
  predicate LabelsBare(ev: Event)
  {
    ev.Para? ==> Every(ev.labelled, Bare)
  }

  /** Every label a `<strong>` gives is bare. */
  lemma EventsBare(elements: seq<Element>)
    ensures Every(Map(elements, EventOf), LabelsBare)
  {
    forall e: Element
      ensures LabelsBare(EventOf(e))
    {
      if e.P? {
        MapEvery(e.strongs, StrongEntry, Bare);
      }
    }
    MapEvery(elements, EventOf, LabelsBare);
  }

  /** What one event adds has bare labels. */
  lemma AddedBare(title: string, ev: Event)
    requires LabelsBare(ev)
    ensures Every(Added(title, ev), Bare)
  {
    if ev.Para? && title == [] && ev.text != [] {
      var e := Entry("Acerca de", ev.text);
      assert Bare(e);
      assert [e][..0] == [];
    }
  }

  lemma {:induction false} GatheredBare(events: seq<Event>, n: nat)
    requires n <= |events|
    requires forall k :: 0 <= k < |events| ==> LabelsBare(events[k])
    ensures Every(Gathered(events, n), Bare)
  {
    if n > 0 {
      var a, t := Gathered(events, n - 1), Walk(events, n - 1).title;
      GatheredBare(events, n - 1);
      AddedBare(t, events[n - 1]);
      EveryAppend(a, Added(t, events[n - 1]), Bare);
    }
  }

  /**
   * Closing blocks neither drops nor repeats an entry: the blocks of a
   * paragraph section hold, in order, every entry its paragraphs add, and
   * every label is bare, so its `<dt>` ends in exactly one colon.
   */
  lemma ParagraphKeepsEveryEntry(elements: seq<Element>)
    ensures Entries(ParseParagraph(elements)) == Gathered(Map(elements, EventOf), |Map(elements, EventOf)|)
    ensures forall k :: 0 <= k < |Entries(ParseParagraph(elements))| ==> Bare(Entries(ParseParagraph(elements))[k])
  {
    var events := Map(elements, EventOf);
    var st := Walk(events, |events|);
    WalkSound(events, |events|);
    WalkKeepsEntries(events, |events|);
    EventsBare(elements);
    EveryMeans(events, LabelsBare);
    GatheredBare(events, |events|);
    EveryMeans(Gathered(events, |events|), Bare);
    if st.title != [] && st.dl != [] {
      SnocTake(st.out, Block(st.title, st.dl));
    } else {
      AppendNothing(Entries(st.out));
    }
  }

  /** A section that is a single paragraph of plain text gives one "Características" block with an "Acerca de" entry. */
  lemma PlainParagraphIsCaracteristicas(strings: seq<string>)
    requires GetTextSpaced(strings) != []
    ensures ParseParagraph([P([], strings)]) == [Block("Características", [Entry("Acerca de", GetTextSpaced(strings))])]
  {
    var content := GetTextSpaced(strings);
    var events := Map([P([], strings)], EventOf);
    assert [P([], strings)][..0] == [];
    assert events == Map([], EventOf) + [EventOf(P([], strings))];
    assert Walk(events, 1) == Paragraphs("Características", [Entry("Acerca de", content)], []);
  }

  /**
   * A heading without a `<strong>` still closes the block in progress but
   * keeps the old title, so the paragraphs after it open a second block
   * under that same title.
   */
  lemma BareHeadingKeepsTitle(st: Paragraphs)
    requires Sound(st)
    ensures Step(st, EventOf(H5(None))) == Paragraphs(st.title, [], Close(st).out)
  {
  }

  // ---------------------------------------------------------------
  // Table sections
  // ---------------------------------------------------------------

  /** The entry of a row, or `None` when it has fewer than two cells or no `<strong>` in its first one. */
  function RowEntry(r: Row): Option<Entry>
  {
    if |r.cells| < 2 || r.cells[0].strong.None? then None
    else Some(Entry(Label(r.cells[0].strong.value), ReplaceIcons(r.cells[1].content)))
  }

  /** The entries of the rows, in order, skipped rows left out. */
  function TableEntries(rows: seq<Row>): seq<Entry>
  {
    FilterMap(rows, RowEntry)
  }

  /** `parse_table_section`: nothing without an `<h5>`, otherwise one block, even when no row survives. */
  function ParseTable(c: Column): (r: seq<Block>)
    ensures |r| == if c.h5.Some? then 1 else 0
    ensures c.h5.Some? ==> r[0].title == ToSentenceCase(GetText(c.h5.value)) && r[0].entries == TableEntries(c.rows)
  {
    if c.h5.None? then [] else [Block(ToSentenceCase(GetText(c.h5.value)), TableEntries(c.rows))]
  }

  /** `parse_table_section`. */
  method ParseTableSection(c: Column) returns (blocks: seq<Block>)
    ensures blocks == ParseTable(c)
  {
    if c.h5.None? {
      return [];
    }
    var title := ToSentenceCase(GetText(c.h5.value));
    var dl: seq<Entry> := [];
    var i := 0;
    while i < |c.rows|
      invariant i <= |c.rows|
      invariant dl == TableEntries(c.rows[..i])
    {
      FilterMapStep(c.rows, i, RowEntry);
      var cells := c.rows[i].cells;
      if |cells| >= 2 && cells[0].strong.Some? {
        var name := Label(cells[0].strong.value);
        var value := ReplaceIcons(cells[1].content);
        dl := dl + [Entry(name, value)];
      }
      i := i + 1;
    }
    TakeAll(c.rows);
    blocks := [Block(title, dl)];
  }

  /**
   * The entries of a table are exactly those of its usable rows: an entry
   * is there if and only if some row gives it, and every label is bare.
   */
  lemma TableEntriesFromRows(rows: seq<Row>)
    ensures forall e :: e in TableEntries(rows) <==> exists i :: 0 <= i < |rows| && RowEntry(rows[i]) == Some(e)
    ensures forall e :: e in TableEntries(rows) ==> Bare(e)
  {
    FilterMapMembers(rows, RowEntry);
  }

  // ---------------------------------------------------------------
  // Sections and files
  // ---------------------------------------------------------------

  /** A `div.panel-body`: its spec-sheet tables, if any, and its direct `<h5>`/`<p>` children. */
  datatype Section = Section(fichas: seq<Column>, elements: seq<Element>)

  /** The blocks of a list of spec-sheet tables, table after table. */
  function TablesBlocks(fichas: seq<Column>): seq<Block>
  {
    FlatMap(fichas, ParseTable)
  }

  /** How many of the tables have an `<h5>`. */
  function Headed(fichas: seq<Column>): nat
  {
    if fichas == [] then 0 else Headed(fichas[..|fichas| - 1]) + (if fichas[|fichas| - 1].h5.Some? then 1 else 0)
  }

  /** `parse_section`: table mode when there is a spec-sheet table, paragraph mode otherwise. */
  function SectionBlocks(s: Section): seq<Block>
  {
    if s.fichas != [] then TablesBlocks(s.fichas) else ParseParagraph(s.elements)
  }

  lemma {:induction false} TablesBlocksCount(fichas: seq<Column>)
    ensures |TablesBlocks(fichas)| == Headed(fichas)
  {
    if fichas != [] {
      TablesBlocksCount(fichas[..|fichas| - 1]);
      assert TablesBlocks(fichas) == TablesBlocks(fichas[..|fichas| - 1]) + ParseTable(fichas[|fichas| - 1]);
    }
  }

  /**
   * In table mode the paragraphs are ignored and there is one block per
   * table with a heading; in paragraph mode the blocks are those of the
   * paragraphs.
   */
  lemma SectionModes(s: Section)
    ensures s.fichas != [] ==> |SectionBlocks(s)| == Headed(s.fichas)
    ensures s.fichas != [] ==> forall els :: SectionBlocks(Section(s.fichas, els)) == SectionBlocks(s)
    ensures s.fichas == [] ==> SectionBlocks(s) == ParseParagraph(s.elements)
  {
    TablesBlocksCount(s.fichas);
  }

  /** `parse_section`. */
  method ParseSection(s: Section) returns (blocks: seq<Block>)
    ensures blocks == SectionBlocks(s)
  {
    if s.fichas == [] {
      blocks := ParseParagraphSection(s.elements);
      return;
    }
    blocks := [];
    var i := 0;
    while i < |s.fichas|
      invariant i <= |s.fichas|
      invariant blocks == TablesBlocks(s.fichas[..i])
    {
      FlatMapStep(s.fichas, i, ParseTable);
      var b := ParseTableSection(s.fichas[i]);
      blocks := blocks + b;
      i := i + 1;
    }
    TakeAll(s.fichas);
  }

  /** The blocks of a list of sections, section after section. */
  function SectionsBlocks(sections: seq<Section>): seq<Block>
  {
    FlatMap(sections, SectionBlocks)
  }

  /** `process_html_file`: the blocks of every section, or none when the file cannot be read or parsed. */
  function HtmlBlocks(doc: Result<seq<Section>>): seq<Block>
  {
    if doc.Err? then [] else SectionsBlocks(doc.value)
  }

  /** `process_html_file`. */
  method ProcessHtmlFile(doc: Result<seq<Section>>) returns (blocks: seq<Block>)
    ensures blocks == HtmlBlocks(doc)
  {
    if doc.Err? {
      return [];
    }
    blocks := [];
    var i := 0;
    while i < |doc.value|
      invariant i <= |doc.value|
      invariant blocks == SectionsBlocks(doc.value[..i])
    {
      FlatMapStep(doc.value, i, SectionBlocks);
      var b := ParseSection(doc.value[i]);
      blocks := blocks + b;
      i := i + 1;
    }
    TakeAll(doc.value);
  }

  // ---------------------------------------------------------------
  // process_all_products
  // ---------------------------------------------------------------

  /** A product of the JSON files, as its fields in order. */
  type Product = seq<(string, Json)>

  /** A SKU to process, and whether it was missing from the existing SKUs when the run started. */
  datatype Pending = Pending(sku: Json, nuevo: bool)

  /** `producto.get("clave")`, with `JNull` for a missing key. */
  function Clave(p: Product): Json
  {
    GetOr(p, "clave", JNull)
  }

  /** `skus_a_procesar`: every truthy `clave` in order, marked new unless it is one of the existing SKUs. */
  function ToProcess(productos: seq<Product>, existentes: seq<string>): seq<Pending>
  {
    if productos == [] then []
    else
      var init := ToProcess(productos[..|productos| - 1], existentes);
      var sku := Clave(productos[|productos| - 1]);
      if Truthy(sku) then init + [Pending(sku, !(sku.JStr? && sku.s in existentes))] else init
  }

  /** Every pending SKU has a truthy `clave`, and is new exactly when it is not a string among the existing SKUs. */
  lemma {:induction false} ToProcessMarks(productos: seq<Product>, existentes: seq<string>)
    ensures |ToProcess(productos, existentes)| <= |productos|
    ensures forall k :: 0 <= k < |ToProcess(productos, existentes)| ==>
              Truthy(ToProcess(productos, existentes)[k].sku)
              && ToProcess(productos, existentes)[k].nuevo
                 == !(ToProcess(productos, existentes)[k].sku.JStr? && ToProcess(productos, existentes)[k].sku.s in existentes)
  {
    if productos != [] {
      ToProcessMarks(productos[..|productos| - 1], existentes);
    }
  }

  /** The first loop of `process_all_products`. */
  method CollectPending(productos: seq<Product>, existentes: seq<string>) returns (pending: seq<Pending>)
    ensures pending == ToProcess(productos, existentes)
  {
    pending := [];
    var i := 0;
    while i < |productos|
      invariant i <= |productos|
      invariant pending == ToProcess(productos[..i], existentes)
    {
      PrefixStep(productos, i);
      var sku := Clave(productos[i]);
      if Truthy(sku) {
        pending := pending + [Pending(sku, !(sku.JStr? && sku.s in existentes))];
      }
      i := i + 1;
    }
    TakeAll(productos);
  }

  /** `procesados_skus` and the three counters. */
  datatype Counters = Counters(procesados: seq<string>, total: nat, convertidas: nat, procesadas: nat)

  /** The counters, and the SKUs `informaciontablas` holds, as the run goes. */
  datatype Run = Run(c: Counters, db: set<string>)

  /**
   * What the run meets besides the page parser: whether the input page of
   * a SKU exists, the page as parsed (or the error reading it), whether
   * loading the template, rendering and saving the result succeed, whether
   * the database commits the insertion of a new SKU into
   * `informaciontablas`, and whether it commits the write to
   * `CaracteristicasTabla`.
   */
  datatype World = World(found: string -> bool, doc: string -> Result<seq<Section>>, written: string -> bool,
                         insertOk: string -> bool, caracteristicasOk: string -> bool)

  /**
   * One pending SKU. A `clave` that is not a string stops the run with the
   * `TypeError` of `os.path.join`. A missing page is skipped; a page with
   * no block counts as processed only. A failure to load, render or save
   * skips the SKU. So does a new SKU that `informaciontablas` already holds
   * (`insertar_sku` reports an update, which the code raises as an error)
   * or whose insertion the database refuses, and an existing one it does
   * not hold (there is no record to take the `ID` from). A refused write to
   * `CaracteristicasTabla` skips the SKU too, but a new SKU inserted before
   * it stays inserted. Otherwise the SKU is recorded and counted as
   * converted.
   */
  function Handle(w: World, st: Result<Run>, p: Pending): Result<Run>
  {
    if st.Err? then st
    else if !p.sku.JStr? then Err("TypeError")
    else
      var s, run := p.sku.s, st.value;
      if !w.found(s) then st
      else if HtmlBlocks(w.doc(s)) == [] then Ok(run.(c := run.c.(procesadas := run.c.procesadas + 1)))
      else if !w.written(s) then st
      else if p.nuevo == (s in run.db) then st
      else if p.nuevo && !w.insertOk(s) then st
      else
        var db := if p.nuevo then run.db + {s} else run.db;
        if !w.caracteristicasOk(s) then Ok(run.(db := db))
        else Ok(Run(Counters(run.c.procesados + [s], run.c.total + 1, run.c.convertidas + 1, run.c.procesadas + 1), db))
  }

  /** The run after the first `n` pending SKUs. */
  function RunOf(w: World, pending: seq<Pending>, n: nat, db: set<string>): Result<Run>
    requires n <= |pending|
  {
    if n == 0 then Ok(Run(Counters([], 0, 0, 0), db)) else Handle(w, RunOf(w, pending, n - 1, db), pending[n - 1])
  }

  /** Once the run has stopped on an error, it stays stopped on that error. */
  lemma {:induction false} ErrorSticks(w: World, pending: seq<Pending>, k: nat, n: nat, db: set<string>)
    requires k <= n <= |pending|
    requires RunOf(w, pending, k, db).Err?
    ensures RunOf(w, pending, n, db) == RunOf(w, pending, k, db)
  {
    if k < n {
      ErrorSticks(w, pending, k, n - 1, db);
    }
  }

  /** One SKU of the second loop of `process_all_products`. */
  method HandleOne(w: World, run: Run, p: Pending) returns (r: Result<Run>)
    ensures r == Handle(w, Ok(run), p)
  {
    if !p.sku.JStr? {
      return Err("TypeError");
    }
    var s := p.sku.s;
    r := Ok(run);
    if !w.found(s) {
      return;
    }
    var blocks := ProcessHtmlFile(w.doc(s));
    if blocks == [] {
      r := Ok(run.(c := run.c.(procesadas := run.c.procesadas + 1)));
      return;
    }
    if !w.written(s) {
      return;
    }
    var db := run.db;
    if p.nuevo {
      if s in db || !w.insertOk(s) {
        return;
      }
      db := db + {s};
    } else if s !in db {
      return;
    }
    if !w.caracteristicasOk(s) {
      r := Ok(run.(db := db));
      return;
    }
    var c := run.c;
    r := Ok(Run(Counters(c.procesados + [s], c.total + 1, c.convertidas + 1, c.procesadas + 1), db));
  }

  /** The second loop of `process_all_products`. */
  method ProcessPending(w: World, pending: seq<Pending>, db: set<string>) returns (r: Result<Run>)
    ensures r == RunOf(w, pending, |pending|, db)
  {
    r := Ok(Run(Counters([], 0, 0, 0), db));
    var i := 0;
    while i < |pending|
      invariant i <= |pending|
      invariant r == RunOf(w, pending, i, db)
      invariant r.Ok?
    {
      r := HandleOne(w, r.value, pending[i]);
      i := i + 1;
      if r.Err? {
        ErrorSticks(w, pending, i, |pending|, db);
        return;
      }
    }
  }

  /** `process_all_products` with four values on every path: the counters of the run, or the error that stops it. */
  function CountersOf(w: World, productos: seq<Product>, existentes: seq<string>, db: set<string>): Result<Counters>
  {
    var pending := ToProcess(productos, existentes);
    match RunOf(w, pending, |pending|, db)
    case Ok(run) => Ok(run.c)
    case Err(e) => Err(e)
  }

  /** `process_all_products`, returning four values on its early exits as well. */
  method ProcessAllProducts(w: World, productos: seq<Product>, existentes: seq<string>, db: set<string>)
    returns (r: Result<Counters>)
    ensures r == CountersOf(w, productos, existentes, db)
  {
    if productos == [] {
      return Ok(Counters([], 0, 0, 0));
    }
    var pending := CollectPending(productos, existentes);
    if pending == [] {
      return Ok(Counters([], 0, 0, 0));
    }
    var run := ProcessPending(w, pending, db);
    if run.Err? {
      return Err(run.error);
    }
    r := Ok(run.value.c);
  }

  /** What `process_all_products` hands back: three values on its two early exits, four after the loop. */
  datatype Returned = Three(skus: seq<string>, first: nat, second: nat) | Four(c: Counters)

  /** `process_all_products` as written. */
  function ReturnedAsWritten(w: World, productos: seq<Product>, existentes: seq<string>, db: set<string>): Result<Returned>
  {
    if productos == [] || ToProcess(productos, existentes) == [] then Ok(Three([], 0, 0))
    else
      match CountersOf(w, productos, existentes, db)
      case Ok(c) => Ok(Four(c))
      case Err(e) => Err(e)
  }

  /** `main` unpacks four values; three raise `ValueError` before any report is written. */
  function Unpack(r: Returned): (u: Result<Counters>)
    ensures u.Ok? <==> r.Four?
    ensures r.Four? ==> u.value == r.c
  {
    match r
    case Three(_, _, _) => Err("ValueError")
    case Four(c) => Ok(c)
  }

  /**
   * With nothing to process (no product, or none with a `clave`), the code
   * as written returns three values and `main` fails to unpack them, where
   * four zero counters were meant.
   */
  lemma EarlyExitCannotBeUnpacked(w: World, productos: seq<Product>, existentes: seq<string>, db: set<string>)
    requires ToProcess(productos, existentes) == []
    ensures ReturnedAsWritten(w, productos, existentes, db) == Ok(Three([], 0, 0))
    ensures Unpack(Three([], 0, 0)).Err?
    ensures CountersOf(w, productos, existentes, db) == Ok(Counters([], 0, 0, 0))
  {
  }

  /** After the loop, the code as written and the corrected one agree. */
  lemma LoopAgreesWithCorrected(w: World, productos: seq<Product>, existentes: seq<string>, db: set<string>)
    requires ToProcess(productos, existentes) != []
    ensures ReturnedAsWritten(w, productos, existentes, db).Ok? <==> CountersOf(w, productos, existentes, db).Ok?
    ensures ReturnedAsWritten(w, productos, existentes, db).Ok? ==>
              Unpack(ReturnedAsWritten(w, productos, existentes, db).value) == CountersOf(w, productos, existentes, db)
  {
    ToProcessMarks(productos, existentes);
  }

  /** `total_skus_procesados == caracteristicas_convertidas == len(procesados_skus) <= caracteristicas_procesadas`. */
  predicate Tallied(c: Counters)
  {
    c.total == c.convertidas == |c.procesados| && c.convertidas <= c.procesadas
  }

  /** The counters agree at every step, and each SKU moves `caracteristicas_procesadas` at most once. */
  lemma {:induction false} RunTallied(w: World, pending: seq<Pending>, n: nat, db: set<string>)
    requires n <= |pending|
    ensures RunOf(w, pending, n, db).Ok? ==>
              Tallied(RunOf(w, pending, n, db).value.c) && RunOf(w, pending, n, db).value.c.procesadas <= n
  {
    if n > 0 {
      RunTallied(w, pending, n - 1, db);
    }
  }

  /**
   * A SKU is listed as converted only when its page exists, gave blocks and
   * was saved and its write to `CaracteristicasTabla` committed, and it is
   * then in `informaciontablas`.
   */
  lemma {:induction false} RunConvertsOnlyPages(w: World, pending: seq<Pending>, n: nat, db: set<string>)
    requires n <= |pending|
    ensures RunOf(w, pending, n, db).Ok? ==>
              var run := RunOf(w, pending, n, db).value;
              db <= run.db
              && forall k :: 0 <= k < |run.c.procesados| ==>
                   var s := run.c.procesados[k];
                   w.found(s) && HtmlBlocks(w.doc(s)) != [] && w.written(s) && w.caracteristicasOk(s) && s in run.db
  {
    if n > 0 {
      RunConvertsOnlyPages(w, pending, n - 1, db);
    }
  }

  /** The run stops on an error exactly when some pending `clave` is not a string. */
  lemma {:induction false} RunFailsOnlyOnTypeError(w: World, pending: seq<Pending>, n: nat, db: set<string>)
    requires n <= |pending|
    ensures RunOf(w, pending, n, db).Err? <==> exists k :: 0 <= k < n && !pending[k].sku.JStr?
    ensures RunOf(w, pending, n, db).Err? ==> RunOf(w, pending, n, db).error == "TypeError"
  {
    if n > 0 {
      RunFailsOnlyOnTypeError(w, pending, n - 1, db);
    }
  }

  /**
   * A SKU marked new everywhere it appears is converted at most once: the
   * first conversion inserts it into `informaciontablas`, and any later
   * attempt finds it there and is rejected.
   */
  lemma {:induction false} NewSkuConvertedOnce(w: World, pending: seq<Pending>, n: nat, db: set<string>, s: string)
    requires n <= |pending|
    requires forall k :: 0 <= k < |pending| && pending[k].sku == JStr(s) ==> pending[k].nuevo
    ensures RunOf(w, pending, n, db).Ok? ==>
              var run := RunOf(w, pending, n, db).value;
              multiset(run.c.procesados)[s] == 0 || (multiset(run.c.procesados)[s] == 1 && s in run.db)
  {
    if n > 0 {
      NewSkuConvertedOnce(w, pending, n - 1, db, s);
      var prev := RunOf(w, pending, n - 1, db);
      if prev.Ok? && RunOf(w, pending, n, db).Ok? {
        var before := prev.value.c.procesados;
        var after := RunOf(w, pending, n, db).value.c.procesados;
        if after != before {
          assert after == before + [pending[n - 1].sku.s];
          assert multiset(after) == multiset(before) + multiset{pending[n - 1].sku.s};
        }
      }
    }
  }

  /**
   * What `process_all_products` reports: the counters agree, no more SKUs
   * are processed than there are products, every listed SKU had a page
   * that gave blocks and was saved and its conversion committed to
   * `CaracteristicasTabla`, and a SKU that was not among the
   * existing ones is listed at most once. The run fails only on a `clave`
   * that is not a string.
   */
  lemma ProcessAllProductsReport(w: World, productos: seq<Product>, existentes: seq<string>, db: set<string>)
    ensures CountersOf(w, productos, existentes, db).Ok? ==>
              var c := CountersOf(w, productos, existentes, db).value;
              Tallied(c) && c.procesadas <= |productos|
              && (forall k :: 0 <= k < |c.procesados| ==>
                    w.found(c.procesados[k]) && HtmlBlocks(w.doc(c.procesados[k])) != [] && w.written(c.procesados[k])
                    && w.caracteristicasOk(c.procesados[k]))
              && forall s :: s !in existentes ==> multiset(c.procesados)[s] <= 1
    ensures CountersOf(w, productos, existentes, db).Err? <==>
              exists k :: 0 <= k < |ToProcess(productos, existentes)| && !ToProcess(productos, existentes)[k].sku.JStr?
  {
    var pending := ToProcess(productos, existentes);
    ToProcessMarks(productos, existentes);
    RunTallied(w, pending, |pending|, db);
    RunConvertsOnlyPages(w, pending, |pending|, db);
    RunFailsOnlyOnTypeError(w, pending, |pending|, db);
    forall s | s !in existentes
      ensures CountersOf(w, productos, existentes, db).Ok? ==> multiset(CountersOf(w, productos, existentes, db).value.procesados)[s] <= 1
    {
      NewSkuConvertedOnce(w, pending, |pending|, db, s);
    }
  }
}
