/**
 * Shopify tag handling. `sanitize_tags` is the same function in the product
 * update, zero-stock, creation and missing-product scripts; it is modelled
 * once here, together with the 'SinTag' default those scripts apply to an
 * empty result and the parsing of the comma-separated tag string read back
 * from Shopify.
 */
module Tags {
  import opened Common

  const MaxTagLength: nat := 255

  /** The tag written when sanitising leaves nothing. */
  const DefaultTag: string := "SinTag"

  /** The characters the class `[A-Za-z0-9\-_. ]` lets through. */
  predicate KeptByFilter(c: char)
  {
    IsAsciiAlnum(c) || c == '-' || c == '_' || c == '.' || c == ' '
  }

  /** The characters a sanitised tag is made of. */
  predicate TagChar(c: char)
  {
    IsAsciiAlnum(c) || c == '-' || c == '.' || c == ' '
  }

  predicate HasAlnum(s: string)
  {
    exists i :: 0 <= i < |s| && IsAsciiAlnum(s[i])
  }

  /** Positions `i` and `i + 1` both hold whitespace. */
  predicate DoubleSpaceAt(s: string, i: int)
    requires 0 <= i < |s| - 1
  {
    IsSpace(s[i]) && IsSpace(s[i + 1])
  }

  predicate NoDoubleSpace(s: string)
  {
    forall i :: 0 <= i < |s| - 1 ==> !DoubleSpaceAt(s, i)
  }

  /** What every tag that `sanitize_tags` returns looks like. */
  predicate WellFormedTag(t: string)
  {
    && 0 < |t| <= MaxTagLength
    && (forall i :: 0 <= i < |t| ==> TagChar(t[i]))
    && HasAlnum(t)
    && t[0] != ' '
    && NoDoubleSpace(t)
  }

  // ---------------------------------------------------------------
  // The steps applied to one tag
  // ---------------------------------------------------------------

  /** `re.sub(r'[^A-Za-z0-9\-_. ]+', '', s)`. */
  function FilterChars(s: string): (r: string)
    ensures |r| <= |s|
    ensures forall i :: 0 <= i < |r| ==> KeptByFilter(r[i])
  {
    if s == [] then [] else (if KeptByFilter(s[0]) then [s[0]] else []) + FilterChars(s[1..])
  }

  /** `s.replace(c, '')`. */
  function RemoveChar(s: string, c: char): (r: string)
    ensures c !in r
  {
    if s == [] then [] else (if s[0] == c then [] else [s[0]]) + RemoveChar(s[1..], c)
  }

  /** `s.replace(a, b)` for single characters. */
  function ReplaceChar(s: string, a: char, b: char): (r: string)
    ensures |r| == |s|
    ensures forall i :: 0 <= i < |s| ==> r[i] == if s[i] == a then b else s[i]
  {
    seq(|s|, i requires 0 <= i < |s| => if s[i] == a then b else s[i])
  }

  /** `re.sub(r'\s+', ' ', s)`: every run of whitespace becomes one space. */
  function CollapseSpaces(s: string): (r: string)
    ensures |r| <= |s|
    ensures r == [] <==> s == []
    ensures r != [] ==> (IsSpace(r[0]) <==> IsSpace(s[0]))
    ensures NoDoubleSpace(r)
    decreases |s|
  {
    if s == [] then []
    else if IsSpace(s[0]) then
      var rest := CollapseSpaces(LStrip(s[1..]));
      NoDoubleSpaceCons(' ', rest);
      [' '] + rest
    else
      var rest := CollapseSpaces(s[1..]);
      NoDoubleSpaceCons(s[0], rest);
      [s[0]] + rest
  }

  lemma NoDoubleSpaceCons(c: char, s: string)
    requires NoDoubleSpace(s)
    requires s == [] || !IsSpace(c) || !IsSpace(s[0])
    ensures NoDoubleSpace([c] + s)
  {
    var r := [c] + s;
    forall i | 0 <= i < |r| - 1 ensures !DoubleSpaceAt(r, i) {
      if i > 0 { assert !DoubleSpaceAt(s, i - 1); }
    }
  }

  /** The stripped tag after the character filter, the comma removal and the underscore rewrite. */
  function Dashed(stripped: string): string
  {
    ReplaceChar(RemoveChar(FilterChars(stripped), ','), '_', '-')
  }

  /** The tag after whitespace runs are collapsed and the ends stripped again. */
  function Trimmed(t: string): string
  {
    Strip(CollapseSpaces(Dashed(Strip(t))))
  }

  /** One tag as the body of the loop in `sanitize_tags` rewrites it. */
  function CleanTag(t: string): string
  {
    var trimmed := Trimmed(t);
    if |trimmed| > MaxTagLength then trimmed[..MaxTagLength] else trimmed
  }

  /** Whether `sanitize_tags` keeps an input entry (None stands for a missing value). */
  predicate Kept(tag: Option<string>)
  {
    tag.Some? && tag.value != "" && Strip(tag.value) != "" && HasAlnum(CleanTag(tag.value))
  }

  /** The list `sanitize_tags` returns, written from the back so that a loop can follow it. */
  function Sanitized(tags: seq<Option<string>>): seq<string>
  {
    if tags == [] then []
    else
      var last := tags[|tags| - 1];
      Sanitized(tags[..|tags| - 1]) + (if Kept(last) then [CleanTag(last.value)] else [])
  }

  // ---------------------------------------------------------------
  // Lemmas about one tag
  // ---------------------------------------------------------------

  lemma {:induction false} RemoveAbsentChar(s: string, c: char)
    requires c !in s
    ensures RemoveChar(s, c) == s
  {
    if s != [] { RemoveAbsentChar(s[1..], c); }
  }

  lemma NoDoubleSpaceSlice(s: string, k: nat, n: nat)
    requires k + n <= |s|
    requires NoDoubleSpace(s)
    ensures NoDoubleSpace(s[k..k + n])
  {
    var t := s[k..k + n];
    forall i | 0 <= i < |t| - 1 ensures !DoubleSpaceAt(t, i) {
      assert !DoubleSpaceAt(s, k + i);
      assert t[i] == s[k + i] && t[i + 1] == s[k + i + 1];
    }
  }

  lemma {:induction false} FilterDropsCommas(s: string)
    ensures ',' !in FilterChars(s)
  {
    if s != [] { FilterDropsCommas(s[1..]); }
  }

  predicate AllTagChars(s: string)
  {
    forall i :: 0 <= i < |s| ==> TagChar(s[i])
  }

  /** After the filter and the underscore rewrite only tag characters are left. */
  lemma DashedTagChars(s: string)
    ensures AllTagChars(Dashed(s))
  {
    var filtered := FilterChars(s);
    FilterDropsCommas(s);
    RemoveAbsentChar(filtered, ',');
    var dashed := ReplaceChar(filtered, '_', '-');
    forall i | 0 <= i < |dashed| ensures TagChar(dashed[i]) {
      assert KeptByFilter(filtered[i]);
    }
  }

  lemma {:induction false} CollapseKeepsTagChars(s: string)
    requires AllTagChars(s)
    ensures AllTagChars(CollapseSpaces(s))
    decreases |s|
  {
    if s != [] {
      if IsSpace(s[0]) {
        var rest := LStrip(s[1..]);
        SliceKeepsTagChars(s, 1 + |s[1..]| - |rest|, |rest|);
        assert rest == s[1 + |s[1..]| - |rest|..1 + |s[1..]|];
        CollapseKeepsTagChars(rest);
      } else {
        SliceKeepsTagChars(s, 1, |s| - 1);
        assert s[1..1 + (|s| - 1)] == s[1..];
        CollapseKeepsTagChars(s[1..]);
      }
    }
  }

  lemma SliceKeepsTagChars(s: string, k: nat, n: nat)
    requires k + n <= |s|
    requires AllTagChars(s)
    ensures AllTagChars(s[k..k + n])
  {
    var t := s[k..k + n];
    forall i | 0 <= i < |t| ensures TagChar(t[i]) {
      assert t[i] == s[k + i];
    }
  }

  /** Collapsing and stripping a string of tag characters. */
  lemma CollapsedStrippedShape(d: string)
    requires AllTagChars(d)
    ensures AllTagChars(Strip(CollapseSpaces(d)))
    ensures NoDoubleSpace(Strip(CollapseSpaces(d)))
  {
    CollapseKeepsTagChars(d);
    StripKeepsShape(CollapseSpaces(d));
  }

  lemma StripKeepsShape(s: string)
    requires AllTagChars(s) && NoDoubleSpace(s)
    ensures AllTagChars(Strip(s)) && NoDoubleSpace(Strip(s))
  {
    var k := StripSlice(s);
    var n := |Strip(s)|;
    NoDoubleSpaceSlice(s, k, n);
    SliceKeepsTagChars(s, k, n);
  }

  /** The stripped, collapsed tag: tag characters, no leading space, no double space. */
  lemma TrimmedShape(t: string)
    ensures AllTagChars(Trimmed(t))
    ensures Trimmed(t) == [] || Trimmed(t)[0] != ' '
    ensures NoDoubleSpace(Trimmed(t))
  {
    DashedTagChars(Strip(t));
    CollapsedStrippedShape(Dashed(Strip(t)));
  }

  /** Whatever survives the final alphanumeric check is a well-formed tag. */
  lemma CleanTagWellFormed(t: string)
    requires HasAlnum(CleanTag(t))
    ensures WellFormedTag(CleanTag(t))
  {
    TrimmedShape(t);
    TruncatedShape(Trimmed(t));
  }

  /** Cutting a stripped, collapsed string of tag characters to 255 keeps its shape. */
  lemma TruncatedShape(trimmed: string)
    requires AllTagChars(trimmed) && NoDoubleSpace(trimmed)
    requires trimmed == [] || trimmed[0] != ' '
    ensures var r := if |trimmed| > MaxTagLength then trimmed[..MaxTagLength] else trimmed;
      HasAlnum(r) ==> WellFormedTag(r)
  {
    var r := if |trimmed| > MaxTagLength then trimmed[..MaxTagLength] else trimmed;
    assert r == trimmed[0..|r|];
    NoDoubleSpaceSlice(trimmed, 0, |r|);
    SliceKeepsTagChars(trimmed, 0, |r|);
  }

  /** A string of tag characters goes through the filter and the rewrites unchanged. */
  lemma DashedFixesTagChars(t: string)
    requires AllTagChars(t)
    ensures Dashed(t) == t
  {
    forall i | 0 <= i < |t| ensures t[i] != ',' && t[i] != '_' { assert TagChar(t[i]); }
    FilterKeepsKept(t);
    RemoveAbsentChar(t, ',');
    assert ReplaceChar(t, '_', '-') == t;
  }

  /** A tag that is already clean (and has no trailing space) comes back unchanged. */
  lemma CleanTagFixesCleanTags(t: string)
    requires WellFormedTag(t)
    requires t[|t| - 1] != ' '
    ensures CleanTag(t) == t
  {
    DashedFixesTagChars(t);
    CollapseKeepsSingleSpaces(t);
    assert Strip(t) == t by {
      TagCharSpace(t[0]);
      TagCharSpace(t[|t| - 1]);
      StripUnchanged(t);
    }
  }

  /** The only white space among the tag characters is the blank. */
  lemma TagCharSpace(c: char)
    requires TagChar(c)
    ensures IsSpace(c) <==> c == ' '
  {
  }

  lemma {:induction false} FilterKeepsKept(s: string)
    requires AllTagChars(s)
    ensures FilterChars(s) == s
  {
    if s != [] {
      assert TagChar(s[0]);
      SliceKeepsTagChars(s, 1, |s| - 1);
      assert s[1..1 + (|s| - 1)] == s[1..];
      FilterKeepsKept(s[1..]);
    }
  }

  lemma {:induction false} CollapseKeepsSingleSpaces(s: string)
    requires AllTagChars(s)
    requires NoDoubleSpace(s)
    ensures CollapseSpaces(s) == s
  {
    if s != [] {
      assert TagChar(s[0]);
      if IsSpace(s[0]) && |s| > 1 {
        assert !DoubleSpaceAt(s, 0);
        assert LStrip(s[1..]) == s[1..];
      }
      TailShape(s);
      CollapseKeepsSingleSpaces(s[1..]);
    }
  }

  lemma TailShape(s: string)
    requires s != [] && AllTagChars(s) && NoDoubleSpace(s)
    ensures AllTagChars(s[1..]) && NoDoubleSpace(s[1..])
  {
    NoDoubleSpaceSlice(s, 1, |s| - 1);
    SliceKeepsTagChars(s, 1, |s| - 1);
    assert s[1..1 + (|s| - 1)] == s[1..];
  }

  /** The zero-stock tag passes through sanitising untouched. */
  lemma SinStockSurvives()
    ensures CleanTag("Sin Stock") == "Sin Stock"
    ensures Kept(Some("Sin Stock"))
  {
    var t := "Sin Stock";
    assert IsAsciiAlnum(t[0]);
    assert WellFormedTag(t);
    CleanTagFixesCleanTags(t);
  }

  /** A character outside the class is deleted wherever it stands. */
  lemma {:induction false} FilterDeletes(a: string, c: char, b: string)
    requires !KeptByFilter(c)
    ensures FilterChars(a + [c] + b) == FilterChars(a) + FilterChars(b)
  {
    if a == [] {
      assert [c] + b == [c] + b;
      assert ([c] + b)[1..] == b;
    } else {
      assert (a + [c] + b)[1..] == a[1..] + [c] + b;
      FilterDeletes(a[1..], c, b);
    }
  }

  /** Non-ASCII letters are deleted, not transliterated: "Promoción" loses its accented letter. */
  lemma AccentsAreDropped()
    ensures FilterChars("Promoción") == "Promocin"
  {
    var a, b := "Promoci", "n";
    assert "Promoción" == a + ['ó'] + b;
    AccentBetweenLetters(a, b);
    assert a + b == "Promocin";
  }

  lemma AccentBetweenLetters(a: string, b: string)
    requires forall i :: 0 <= i < |a| ==> IsAsciiLetter(a[i])
    requires forall i :: 0 <= i < |b| ==> IsAsciiLetter(b[i])
    ensures FilterChars(a + ['ó'] + b) == a + b
  {
    LetterRunFixed(a);
    LetterRunFixed(b);
    FilterDeletes(a, 'ó', b);
  }

  lemma LetterRunFixed(s: string)
    requires forall i :: 0 <= i < |s| ==> IsAsciiLetter(s[i])
    ensures FilterChars(s) == s
  {
    assert AllTagChars(s);
    FilterKeepsKept(s);
  }

  lemma CleanTagIsStripped(f: string)
    requires WellFormedTag(f) && f[|f| - 1] != ' '
    ensures Strip(f) == f
  {
    assert TagChar(f[0]) && TagChar(f[|f| - 1]);
    StripUnchanged(f);
  }

  /**
   * A tag with no surrounding whitespace whose filtered form is a clean
   * tag is kept, and cleans to that filtered form.
   */
  lemma CleanTagOfFiltered(t: string, f: string)
    requires t != [] && !IsSpace(t[0]) && !IsSpace(t[|t| - 1])
    requires FilterChars(t) == f
    requires WellFormedTag(f) && f[|f| - 1] != ' '
    ensures CleanTag(t) == f
    ensures Kept(Some(t))
  {
    StripUnchanged(t);
    assert AllTagChars(f);
    FilterKeepsKept(f);
    DashedFixesTagChars(f);
    assert Dashed(t) == f;
    CleanTagIsStripped(f);
    CleanTagFixesCleanTags(f);
    assert Trimmed(t) == Trimmed(f);
  }

  /** A non-empty run of ASCII letters is a clean tag. */
  lemma LettersWellFormed(f: string)
    requires 0 < |f| <= MaxTagLength
    requires forall i :: 0 <= i < |f| ==> IsAsciiLetter(f[i])
    ensures WellFormedTag(f) && f[|f| - 1] != ' '
  {
    assert IsAsciiAlnum(f[0]);
    forall i | 0 <= i < |f| - 1 ensures !DoubleSpaceAt(f, i) {
      assert IsAsciiLetter(f[i]);
    }
  }

  /** A non-empty run of at most 255 ASCII letters passes through sanitising untouched. */
  lemma LetterWordKept(w: string)
    requires 0 < |w| <= MaxTagLength
    requires forall i :: 0 <= i < |w| ==> IsAsciiLetter(w[i])
    ensures PassesUnchanged(w)
  {
    LettersWellFormed(w);
    assert AllTagChars(w);
    FilterKeepsKept(w);
    assert IsAsciiLetter(w[0]) && IsAsciiLetter(w[|w| - 1]);
    CleanTagOfFiltered(w, w);
  }

  /** `w` passes through sanitising untouched. */
  predicate PassesUnchanged(w: string)
  {
    Kept(Some(w)) && CleanTag(w) == w
  }

  /** Every word of `words` passes through sanitising untouched, stated from the back. */
  predicate AllUnchanged(words: seq<string>)
  {
    words == [] || (AllUnchanged(words[..|words| - 1]) && PassesUnchanged(words[|words| - 1]))
  }

  lemma {:induction false} AllUnchangedOf(words: seq<string>)
    requires forall k :: 0 <= k < |words| ==> PassesUnchanged(words[k])
    ensures AllUnchanged(words)
  {
    if words != [] {
      var init := words[..|words| - 1];
      assert forall k :: 0 <= k < |init| ==> PassesUnchanged(init[k]) by {
        forall k | 0 <= k < |init| ensures PassesUnchanged(init[k]) { assert init[k] == words[k]; }
      }
      AllUnchangedOf(init);
    }
  }

  /** A list of tags that each pass through sanitising untouched comes out as it went in. */
  lemma {:induction false} UnchangedListSanitized(words: seq<string>)
    requires AllUnchanged(words)
    ensures Sanitized(SomeTags(words)) == words
  {
    if words != [] {
      UnchangedListSanitized(words[..|words| - 1]);
      UnchangedStep(words);
    }
  }

  lemma UnchangedStep(words: seq<string>)
    requires words != []
    requires Sanitized(SomeTags(words[..|words| - 1])) == words[..|words| - 1]
    requires PassesUnchanged(words[|words| - 1])
    ensures Sanitized(SomeTags(words)) == words
  {
    var n := |words| - 1;
    Common.TakeSnoc(words, n);
    Common.TakeAll(words);
    UnchangedSnoc(words[..n], words[n]);
  }

  /** One more untouched word at the back of an untouched list. */
  lemma UnchangedSnoc(init: seq<string>, w: string)
    requires Sanitized(SomeTags(init)) == init
    requires PassesUnchanged(w)
    ensures Sanitized(SomeTags(init + [w])) == init + [w]
  {
    SomeTagsAppend(init, [w]);
    SomeTagsOne(w);
    SanitizedSnoc(SomeTags(init), CleanTag(w), Some(w));
  }

  lemma SanitizedSnoc(tags: seq<Option<string>>, cleaned: string, t: Option<string>)
    requires Kept(t) && cleaned == CleanTag(t.value)
    ensures Sanitized(tags + [t]) == Sanitized(tags) + [cleaned]
  {
    Common.SnocTake(tags, t);
  }

  /** "Promoción" itself is not a clean tag: no sanitised tag equals it. */
  lemma PromotionTagNotClean()
    ensures !WellFormedTag("Promoción")
  {
    assert !TagChar("Promoción"[7]);
  }

  /**
   * The promotion tag "Promoción" is kept when it is sanitised, but its
   * accented letter is deleted, not transliterated: it becomes "Promocin".
   */
  lemma PromotionTagRewritten()
    ensures Kept(Some("Promoción"))
    ensures CleanTag("Promoción") == "Promocin"
  {
    var t, f := "Promoción", "Promocin";
    assert !IsSpace(t[0]) && !IsSpace(t[|t| - 1]);
    LettersWellFormed(f);
    AccentsAreDropped();
    CleanTagOfFiltered(t, f);
  }

  // ---------------------------------------------------------------
  // The list operation
  // ---------------------------------------------------------------

  /** `sanitize_tags(tags)`. */
  method SanitizeTags(tags: seq<Option<string>>) returns (sanitized: seq<string>)
    ensures sanitized == Sanitized(tags)
    ensures forall t :: t in sanitized ==> WellFormedTag(t)
  {
    sanitized := [];
    var i := 0;
    while i < |tags|
      invariant 0 <= i <= |tags|
      invariant sanitized == Sanitized(tags[..i])
      invariant forall t :: t in sanitized ==> WellFormedTag(t)
    {
      Common.PrefixStep(tags, i);
      var tag := tags[i];
      if tag.Some? && tag.value != "" {
        var stripped := Strip(tag.value);
        if stripped != "" {
          var cleaned := CleanTag(tag.value);
          if HasAlnum(cleaned) {
            CleanTagWellFormed(tag.value);
            sanitized := sanitized + [cleaned];
          }
        }
      }
      i := i + 1;
    }
    Common.TakeAll(tags);
  }

  /** A list of strings as entries of `sanitize_tags`, none of them missing. */
  function SomeTags(tags: seq<string>): (r: seq<Option<string>>)
    ensures |r| == |tags|
    ensures forall i :: 0 <= i < |tags| ==> r[i] == Some(tags[i])
  {
    seq(|tags|, i requires 0 <= i < |tags| => Some(tags[i]))
  }

  lemma SomeTagsAppend(a: seq<string>, b: seq<string>)
    ensures SomeTags(a + b) == SomeTags(a) + SomeTags(b)
  {
    assert forall i :: 0 <= i < |a| + |b| ==> SomeTags(a + b)[i] == (SomeTags(a) + SomeTags(b))[i];
  }

  lemma SomeTagsOne(w: string)
    ensures SomeTags([w]) == [Some(w)]
  {
  }

  /** `list(filter(None, candidates))`: None and '' are dropped; any raising candidate raises. */
  function Collect(candidates: seq<Result<Option<string>>>): (r: Result<seq<string>>)
    ensures r.Ok? <==> forall i :: 0 <= i < |candidates| ==> candidates[i].Ok?
    ensures r.Ok? ==> forall t :: t in r.value ==> t != "" && exists i :: 0 <= i < |candidates| && candidates[i] == Ok(Some(t))
  {
    if candidates == [] then Ok([])
    else
      var init, c := candidates[..|candidates| - 1], candidates[|candidates| - 1];
      var rest := Collect(init);
      if rest.Err? then rest
      else if c.Err? then Err(c.error)
      else
        assert forall i :: 0 <= i < |init| ==> init[i] == candidates[i];
        Ok(rest.value + (if c.value.Some? && c.value.value != "" then [c.value.value] else []))
  }

  /** A list whose head is kept and whose tail passes unchanged sanitises to the cleaned head and the tail. */
  lemma HeadCleanedTailKept(ws: seq<string>)
    requires ws != [] && Kept(Some(ws[0]))
    requires AllUnchanged(ws[1..])
    ensures Sanitized(SomeTags(ws)) == [CleanTag(ws[0])] + ws[1..]
  {
    var rest := ws[1..];
    Common.HeadTail(ws);
    SomeTagsAppend([ws[0]], rest);
    SomeTagsOne(ws[0]);
    SanitizedAppend([Some(ws[0])], SomeTags(rest));
    SanitizedOne(ws[0]);
    UnchangedListSanitized(rest);
  }

  /** Every word after the first passes through untouched. */
  lemma TailAllUnchanged(ws: seq<string>)
    requires ws != []
    requires forall k :: 1 <= k < |ws| ==> PassesUnchanged(ws[k])
    ensures AllUnchanged(ws[1..])
  {
    var rest := ws[1..];
    forall k | 0 <= k < |rest| ensures PassesUnchanged(rest[k]) {
      assert rest[k] == ws[k + 1];
    }
    AllUnchangedOf(rest);
  }

  lemma SanitizedOne(t: string)
    ensures Sanitized([Some(t)]) == if Kept(Some(t)) then [CleanTag(t)] else []
  {
    assert [Some(t)][..0] == [];
  }

  /** Sanitising a concatenation sanitises each part in turn: input order is kept. */
  lemma {:induction false} SanitizedAppend(a: seq<Option<string>>, b: seq<Option<string>>)
    ensures Sanitized(a + b) == Sanitized(a) + Sanitized(b)
    decreases |b|
  {
    if b == [] {
      Common.AppendNothing(a);
    } else {
      Common.AppendDropLast(a, b);
      SanitizedAppend(a, b[..|b| - 1]);
    }
  }

  /** A tag is in the result exactly when some kept input entry cleans to it. */
  lemma {:induction false} SanitizedMembers(tags: seq<Option<string>>, t: string)
    ensures t in Sanitized(tags) <==>
      exists i :: 0 <= i < |tags| && Kept(tags[i]) && CleanTag(tags[i].value) == t
  {
    if tags != [] {
      var init := tags[..|tags| - 1];
      SanitizedMembers(init, t);
      if exists i :: 0 <= i < |tags| && Kept(tags[i]) && CleanTag(tags[i].value) == t {
        var i :| 0 <= i < |tags| && Kept(tags[i]) && CleanTag(tags[i].value) == t;
        if i < |tags| - 1 { assert init[i] == tags[i]; }
      }
      if t in Sanitized(init) {
        var i :| 0 <= i < |init| && Kept(init[i]) && CleanTag(init[i].value) == t;
        assert tags[i] == init[i];
      }
    }
  }

  /** Entries that are missing, empty or only whitespace never reach the result. */
  lemma BlankEntriesDropped(tag: Option<string>)
    requires tag.None? || forall i :: 0 <= i < |tag.value| ==> IsSpace(tag.value[i])
    ensures Sanitized([tag]) == []
  {
    assert [tag][..0] == [];
    if tag.Some? { StripEmptyIffAllSpace(tag.value); }
  }

  /** The `['SinTag']` default the scripts apply to an empty sanitised list. */
  function OrDefault(tags: seq<string>): (r: seq<string>)
    ensures r != []
    ensures (forall t :: t in tags ==> WellFormedTag(t)) ==> forall t :: t in r ==> WellFormedTag(t)
    ensures tags != [] ==> r == tags
  {
    if tags == [] then
      assert IsAsciiAlnum(DefaultTag[0]);
      assert WellFormedTag(DefaultTag);
      [DefaultTag]
    else tags
  }

  // ---------------------------------------------------------------
  // The tag string Shopify stores and returns
  // ---------------------------------------------------------------

  /**
   * `{t.strip() for t in tags.split(',')} if isinstance(tags, str) else set()`:
   * every tag read back is comma-free and has no surrounding whitespace.
   */
  function ParseTags(tags: Json): (r: set<string>)
    ensures !tags.JStr? ==> r == {}
    ensures forall t :: t in r ==> ',' !in t && Strip(t) == t
  {
    if tags.JStr? then
      var parts := Split(tags.s, ',');
      assert forall p :: p in parts ==> ',' !in Strip(p) && Strip(Strip(p)) == Strip(p) by {
        forall p | p in parts ensures ',' !in Strip(p) && Strip(Strip(p)) == Strip(p) {
          StrippedPiece(p);
        }
      }
      set p | p in parts :: Strip(p)
    else {}
  }

  lemma StrippedPiece(p: string)
    requires ',' !in p
    ensures ',' !in Strip(p) && Strip(Strip(p)) == Strip(p)
  {
    var k := StripSlice(p);
    var t := Strip(p);
    assert t == p[k..k + |t|];
    StripUnchanged(t);
  }

  /** `', '.join(tags)`: how the update mutation writes a tag list. */
  function JoinTags(tags: seq<string>): string
  {
    if tags == [] then "" else if |tags| == 1 then tags[0] else tags[0] + ", " + JoinTags(tags[1..])
  }

  /** The pieces `split(',')` finds in a `', '`-joined list. */
  function JoinedPieces(tags: seq<string>): (r: seq<string>)
    ensures |r| == |tags|
  {
    if tags == [] then [] else [tags[0]] + seq(|tags| - 1, i requires 0 <= i < |tags| - 1 => " " + tags[i + 1])
  }

  lemma {:induction false} JoinTagsAsJoin(tags: seq<string>)
    requires tags != []
    ensures JoinTags(tags) == Join(JoinedPieces(tags), ',')
  {
    if |tags| > 1 {
      JoinTagsAsJoin(tags[1..]);
      var p := JoinedPieces(tags);
      var q := JoinedPieces(tags[1..]);
      var rest := JoinTags(tags[1..]);
      assert p[1..] == [" " + q[0]] + q[1..];
      JoinLeadingSpace(q);
      assert Join(p, ',') == tags[0] + [','] + (" " + rest);
      assert ", " == [','] + " ";
      calc {
        tags[0] + [','] + (" " + rest);
        { Common.AppendAssoc(tags[0] + [','], " ", rest); }
        tags[0] + [','] + " " + rest;
        { Common.AppendAssoc(tags[0], [','], " "); }
        tags[0] + ", " + rest;
      }
    }
  }

  lemma {:induction false} JoinLeadingSpace(q: seq<string>)
    requires q != []
    ensures Join([" " + q[0]] + q[1..], ',') == " " + Join(q, ',')
  {
    var p := [" " + q[0]] + q[1..];
    if |q| > 1 {
      assert p[1..] == q[1..];
    }
  }

  /** A string with no comma and no whitespace at either end, as every parsed tag is. */
  predicate CommaFreeTrimmed(t: string)
  {
    ',' !in t && (t == [] || (!IsSpace(t[0]) && !IsSpace(t[|t| - 1])))
  }

  lemma StripAfterSpace(t: string)
    requires CommaFreeTrimmed(t)
    ensures Strip(" " + t) == t
  {
    var s := " " + t;
    assert s[1..] == t;
    if t != [] {
      assert LeadingSpaces(s[1..]) == 0;
      assert LeadingSpaces(s) == 1;
      assert TrailingStart(s) == |s|;
    }
  }

  lemma PiecesStrip(tags: seq<string>, i: nat)
    requires i < |tags|
    requires forall t :: t in tags ==> CommaFreeTrimmed(t)
    ensures ',' !in JoinedPieces(tags)[i]
    ensures Strip(JoinedPieces(tags)[i]) == tags[i]
  {
    var p := JoinedPieces(tags)[i];
    assert CommaFreeTrimmed(tags[i]);
    if i == 0 {
      StripUnchanged(tags[0]);
    } else {
      assert p == " " + tags[i];
      StripAfterSpace(tags[i]);
    }
  }

  /**
   * Writing a list of clean tags with `', '.join` and reading it back with
   * the comma split gives back exactly the set of those tags.
   */
  lemma ParseJoinedTags(tags: seq<string>)
    requires tags != []
    requires forall t :: t in tags ==> CommaFreeTrimmed(t)
    ensures ParseTags(JStr(JoinTags(tags))) == set t | t in tags
  {
    var pieces := JoinedPieces(tags);
    forall i | 0 <= i < |tags| ensures ',' !in pieces[i] && Strip(pieces[i]) == tags[i] {
      PiecesStrip(tags, i);
    }
    JoinTagsAsJoin(tags);
    SplitJoin(pieces, ',');
    var lhs := ParseTags(JStr(JoinTags(tags)));
    assert lhs == set p | p in pieces :: Strip(p);
    forall t ensures t in lhs <==> t in tags {
      if t in tags {
        var i :| 0 <= i < |tags| && tags[i] == t;
        assert pieces[i] in pieces;
      }
      if t in lhs {
        var i :| 0 <= i < |pieces| && Strip(pieces[i]) == t;
      }
    }
  }
}
