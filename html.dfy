/**
 * The part of BeautifulSoup that the two spec-sheet conversion scripts
 * rely on, over an abstract document: the strings of an element in
 * document order, the FontAwesome `<i>` icons among them, and
 * `get_text(strip=True)` with and without a separator. The `<dt>`/`<dd>`
 * blocks both scripts emit are kept as a title and a list of entries.
 */
module Html {
  import opened Common

  /** A piece of an element's content in document order: a text node, or an `<i>` with its classes and its own strings. */
  datatype Inline = Text(s: string) | Icon(classes: seq<string>, inner: seq<string>)

  /** The strings a piece contributes to `get_text`. */
  function StringsOf(x: Inline): seq<string>
  {
    match x
    case Text(s) => [s]
    case Icon(_, inner) => inner
  }

  /** All strings of a content, in document order. */
  function Strings(items: seq<Inline>): seq<string>
  {
    if items == [] then [] else Strings(items[..|items| - 1]) + StringsOf(items[|items| - 1])
  }

  /** A non-empty string with no whitespace at either end: what `strip()` leaves of a non-blank string. */
  predicate Solid(t: string)
  {
    t != [] && !IsSpace(t[0]) && !IsSpace(t[|t| - 1])
  }

  /** `strip=True`: every string is stripped and those left empty are dropped. */
  function Stripped(strs: seq<string>): (r: seq<string>)
    ensures |r| <= |strs|
  {
    if strs == [] then []
    else
      var init := Stripped(strs[..|strs| - 1]);
      var t := Strip(strs[|strs| - 1]);
      if t == [] then init else init + [t]
  }

  /** Every string that stripping keeps is solid. */
  lemma {:induction false} StrippedSolid(strs: seq<string>)
    ensures forall i :: 0 <= i < |Stripped(strs)| ==> Solid(Stripped(strs)[i])
  {
    if strs != [] {
      StrippedSolid(strs[..|strs| - 1]);
    }
  }

  /** The concatenation of a list of strings (`''.join`). */
  function Concat(parts: seq<string>): string
  {
    if parts == [] then [] else Concat(parts[..|parts| - 1]) + parts[|parts| - 1]
  }

  /** `get_text(strip=True)`. */
  function GetText(strs: seq<string>): string
  {
    Concat(Stripped(strs))
  }

  /** `get_text(separator=' ', strip=True)`. */
  function GetTextSpaced(strs: seq<string>): string
  {
    Join(Stripped(strs), ' ')
  }

  /** Every element satisfies `p`, checked from the last one back. */
  predicate Every<T>(xs: seq<T>, p: T -> bool)
  {
    xs == [] || (Every(xs[..|xs| - 1], p) && p(xs[|xs| - 1]))
  }

  /** `Every` is the universal quantifier over the elements. */
  lemma {:induction false} EveryMeans<T>(xs: seq<T>, p: T -> bool)
    ensures Every(xs, p) <==> forall i :: 0 <= i < |xs| ==> p(xs[i])
  {
    if xs != [] {
      var init := xs[..|xs| - 1];
      EveryMeans(init, p);
      assert forall i :: 0 <= i < |init| ==> init[i] == xs[i];
    }
  }

  /** Both parts satisfy `p`, so their concatenation does. */
  lemma EveryAppend<T>(a: seq<T>, b: seq<T>, p: T -> bool)
    requires Every(a, p) && Every(b, p)
    ensures Every(a + b, p)
  {
    EveryMeans(a, p);
    EveryMeans(b, p);
    EveryMeans(a + b, p);
    assert forall i :: 0 <= i < |a + b| ==> p((a + b)[i]) by {
      forall i | 0 <= i < |a + b| ensures p((a + b)[i]) {
        if i < |a| { assert (a + b)[i] == a[i]; } else { assert (a + b)[i] == b[i - |a|]; }
      }
    }
  }

  /** `f` applied to each element, in order. */
  function Map<A, B>(xs: seq<A>, f: A -> B): seq<B>
  {
    if xs == [] then [] else Map(xs[..|xs| - 1], f) + [f(xs[|xs| - 1])]
  }

  /** One more element of a `Map`. */
  lemma MapStep<A, B>(xs: seq<A>, i: nat, f: A -> B)
    requires i < |xs|
    ensures Map(xs[..i + 1], f) == Map(xs[..i], f) + [f(xs[i])]
  {
    PrefixStep(xs, i);
  }

  /** A `Map` has one element per input, `f` of it. */
  lemma {:induction false} MapAt<A, B>(xs: seq<A>, f: A -> B)
    ensures |Map(xs, f)| == |xs|
    ensures forall i :: 0 <= i < |xs| ==> Map(xs, f)[i] == f(xs[i])
  {
    if xs != [] {
      MapAt(xs[..|xs| - 1], f);
    }
  }

  /** When `f` always gives something satisfying `p`, so does every element of the `Map`. */
  lemma {:induction false} MapEvery<A, B>(xs: seq<A>, f: A -> B, p: B -> bool)
    requires forall x :: p(f(x))
    ensures Every(Map(xs, f), p)
  {
    if xs != [] {
      MapEvery(xs[..|xs| - 1], f, p);
      SnocTake(Map(xs[..|xs| - 1], f), f(xs[|xs| - 1]));
    }
  }

  /** Nothing is left of the string once stripped. */
  predicate Blank(s: string)
  {
    Strip(s) == []
  }

  /** Every string is blank. */
  predicate AllBlank(strs: seq<string>)
  {
    Every(strs, Blank)
  }

  /** Stripping drops every string exactly when all of them are blank. */
  lemma {:induction false} StrippedEmpty(strs: seq<string>)
    ensures Stripped(strs) == [] <==> AllBlank(strs)
  {
    if strs != [] {
      StrippedEmpty(strs[..|strs| - 1]);
    }
  }

  /** The concatenation of solid strings is empty only for no strings, and is itself solid. */
  lemma {:induction false} ConcatSolid(parts: seq<string>)
    requires forall i :: 0 <= i < |parts| ==> Solid(parts[i])
    ensures Concat(parts) == [] <==> parts == []
    ensures parts != [] ==> Solid(Concat(parts))
  {
    if parts != [] {
      ConcatSolid(parts[..|parts| - 1]);
    }
  }

  /** Joining solid strings with a space is empty only for no strings, and is itself solid. */
  lemma {:induction false} JoinSolid(parts: seq<string>)
    requires forall i :: 0 <= i < |parts| ==> Solid(parts[i])
    ensures Join(parts, ' ') == [] <==> parts == []
    ensures parts != [] ==> Solid(Join(parts, ' '))
  {
    if |parts| > 1 {
      JoinSolid(parts[1..]);
    }
  }

  /**
   * `get_text(strip=True)`, with or without a separator, is empty exactly
   * when every string is blank, and otherwise has no surrounding
   * whitespace, so stripping it again changes nothing.
   */
  lemma GetTextShape(strs: seq<string>)
    ensures GetText(strs) == [] <==> AllBlank(strs)
    ensures GetTextSpaced(strs) == [] <==> AllBlank(strs)
    ensures Strip(GetText(strs)) == GetText(strs)
    ensures Strip(GetTextSpaced(strs)) == GetTextSpaced(strs)
  {
    StrippedEmpty(strs);
    StrippedSolid(strs);
    ConcatSolid(Stripped(strs));
    JoinSolid(Stripped(strs));
    StripUnchanged(GetText(strs));
    StripUnchanged(GetTextSpaced(strs));
  }

  /** The text of a single string is that string stripped. */
  lemma GetTextOne(s: string)
    ensures GetText([s]) == Strip(s)
  {
    var t := Strip(s);
    assert [s][..0] == [];
    if t != [] {
      assert Stripped([s]) == [t];
      assert [t][..0] == [];
      assert Concat([t]) == Concat([]) + t;
    }
  }

  /** The classes of a green check icon. */
  predicate IsCheck(classes: seq<string>)
  {
    "fa-check-circle" in classes && "text-green" in classes
  }

  /** The classes of a red cross icon. */
  predicate IsTimes(classes: seq<string>)
  {
    "fa-times-circle" in classes && "text-red" in classes
  }

  /** One `<dt>`/`<dd>` pair: the label without its colon, and the value. */
  datatype Entry = Entry(name: string, value: string)

  /** A sub-accordion: its header title and its `<dl>` entries. */
  datatype Block = Block(title: string, entries: seq<Entry>)

  /** `strong.get_text(strip=True).rstrip(':')`: the label keeps no trailing colon. */
  function Label(strong: seq<string>): (r: string)
    ensures r == [] || r[|r| - 1] != ':'
  {
    RStripChar(GetText(strong), ':')
  }

  /** The label is the text of the `<strong>` up to its trailing colons, all of which are dropped. */
  lemma LabelStripsColons(strong: seq<string>)
    ensures |Label(strong)| <= |GetText(strong)| && Label(strong) == GetText(strong)[..|Label(strong)|]
    ensures forall i :: |Label(strong)| <= i < |GetText(strong)| ==> GetText(strong)[i] == ':'
    ensures Label(strong) == [] || Label(strong)[|Label(strong)| - 1] != ':'
  {
  }

  /** A label as the entries carry it: no colon at its end. */
  predicate Bare(e: Entry)
  {
    e.name == [] || e.name[|e.name| - 1] != ':'
  }

  /** The text written between `<dt>` and `</dt>`: the label and one colon. */
  function Dt(e: Entry): string
  {
    e.name + [':']
  }

  /**
   * However many colons a label ends with in the page, its `<dt>` ends in
   * exactly one, and stripping that colon gives the label back.
   */
  lemma DtHasOneColon(e: Entry)
    requires Bare(e)
    ensures Dt(e)[|Dt(e)| - 1] == ':'
    ensures |Dt(e)| == 1 || Dt(e)[|Dt(e)| - 2] != ':'
    ensures RStripChar(Dt(e), ':') == e.name
  {
    assert Dt(e)[..|Dt(e)| - 1] == e.name;
  }

  /** A direct `div` of a row: the strings of its first `<strong>`, if any, and its whole content. */
  datatype Cell = Cell(strong: Option<seq<string>>, content: seq<Inline>)

  /** A `div.row`: its direct `div` children. */
  datatype Row = Row(cells: seq<Cell>)

  /** A column of a spec sheet: the strings of its first `<h5>`, if any, and its `div.row`s. */
  datatype Column = Column(h5: Option<seq<string>>, rows: seq<Row>)

  /** The values of the `Some`s that `f` gives for the elements, in order. */
  function FilterMap<A, B>(xs: seq<A>, f: A -> Option<B>): seq<B>
  {
    if xs == [] then []
    else
      var init := FilterMap(xs[..|xs| - 1], f);
      match f(xs[|xs| - 1])
      case None => init
      case Some(y) => init + [y]
  }

  /** One more element of a `FilterMap`. */
  lemma FilterMapStep<A, B>(xs: seq<A>, i: nat, f: A -> Option<B>)
    requires i < |xs|
    ensures FilterMap(xs[..i + 1], f) == FilterMap(xs[..i], f) + (match f(xs[i]) case None => [] case Some(y) => [y])
  {
    PrefixStep(xs, i);
  }

  /** Where a kept element comes from. */
  lemma {:induction false} FilterMapSource<A, B>(xs: seq<A>, f: A -> Option<B>, y: B) returns (i: nat)
    requires y in FilterMap(xs, f)
    ensures i < |xs| && f(xs[i]) == Some(y)
  {
    var init := xs[..|xs| - 1];
    if y in FilterMap(init, f) {
      i := FilterMapSource(init, f, y);
      assert xs[i] == init[i];
    } else {
      i := |xs| - 1;
    }
  }

  /** Whatever `f` gives for an element is kept. */
  lemma {:induction false} FilterMapKeeps<A, B>(xs: seq<A>, f: A -> Option<B>, i: nat)
    requires i < |xs| && f(xs[i]).Some?
    ensures f(xs[i]).value in FilterMap(xs, f)
  {
    var init := xs[..|xs| - 1];
    if i < |init| {
      assert init[i] == xs[i];
      FilterMapKeeps(init, f, i);
    }
  }

  /** An element is kept exactly when `f` gives it for some input. */
  lemma FilterMapMembers<A, B>(xs: seq<A>, f: A -> Option<B>)
    ensures forall y :: y in FilterMap(xs, f) <==> exists i :: 0 <= i < |xs| && f(xs[i]) == Some(y)
  {
    forall y | y in FilterMap(xs, f)
      ensures exists i :: 0 <= i < |xs| && f(xs[i]) == Some(y)
    {
      var i := FilterMapSource(xs, f, y);
    }
    forall y, i | 0 <= i < |xs| && f(xs[i]) == Some(y)
      ensures y in FilterMap(xs, f)
    {
      FilterMapKeeps(xs, f, i);
    }
  }

  /** The concatenation of what `f` gives for each element, in order. */
  function FlatMap<A, B>(xs: seq<A>, f: A -> seq<B>): seq<B>
  {
    if xs == [] then [] else FlatMap(xs[..|xs| - 1], f) + f(xs[|xs| - 1])
  }

  /** One more element of a `FlatMap`. */
  lemma FlatMapStep<A, B>(xs: seq<A>, i: nat, f: A -> seq<B>)
    requires i < |xs|
    ensures FlatMap(xs[..i + 1], f) == FlatMap(xs[..i], f) + f(xs[i])
  {
    PrefixStep(xs, i);
  }

  /** `FlatMap` over two lists appended. */
  lemma {:induction false} FlatMapAppend<A, B>(a: seq<A>, b: seq<A>, f: A -> seq<B>)
    ensures FlatMap(a + b, f) == FlatMap(a, f) + FlatMap(b, f)
    decreases |b|
  {
    if b == [] {
      AppendNothing(a);
      AppendNothing(FlatMap(a, f));
    } else {
      AppendDropLast(a, b);
      FlatMapAppend(a, b[..|b| - 1], f);
      AppendAssoc(FlatMap(a, f), FlatMap(b[..|b| - 1], f), f(b[|b| - 1]));
    }
  }

  /** The entries of a block. */
  function EntriesOf(b: Block): seq<Entry>
  {
    b.entries
  }

  /** The entries of a list of blocks, block after block. */
  function Entries(blocks: seq<Block>): seq<Entry>
  {
    FlatMap(blocks, EntriesOf)
  }
}
