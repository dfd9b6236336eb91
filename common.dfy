/**
 * Values and Python string operations shared by every script of the
 * catalogue pipeline: JSON values as `json.load` returns them, Python
 * truthiness, and the `str` methods the scripts call (strip, lower, upper,
 * split, find, endswith, rstrip of one character, isdigit, int and str of
 * a natural number).
 */
module Common {

  datatype Option<T> = None | Some(value: T)

  datatype Result<T> = Ok(value: T) | Err(error: string)

  /** A JSON value; an object keeps its keys in insertion order, as a Python dict does. */
  datatype Json =
    | JNull
    | JBool(b: bool)
    | JInt(i: int)
    | JFloat(f: real)
    | JStr(s: string)
    | JList(items: seq<Json>)
    | JObj(fields: seq<(string, Json)>)

  // ---------------------------------------------------------------
  // Python dicts as association lists in insertion order
  // ---------------------------------------------------------------

  /** `key in d`. */
  predicate HasKey<K(==), V>(d: seq<(K, V)>, key: K)
  {
    exists i :: 0 <= i < |d| && d[i].0 == key
  }

  /** `d.get(key)`: the value stored under `key`, or None. */
  function Get<K(==), V>(d: seq<(K, V)>, key: K): (r: Option<V>)
    ensures r.Some? <==> HasKey(d, key)
    ensures r.Some? ==> (key, r.value) in d
  {
    if d == [] then None
    else if d[0].0 == key then Some(d[0].1)
    else
      var rest := Get(d[1..], key);
      assert HasKey(d, key) ==> d[0].0 == key || HasKey(d[1..], key) by {
        if HasKey(d, key) {
          var i :| 0 <= i < |d| && d[i].0 == key;
          if i > 0 { assert d[1..][i - 1].0 == key; }
        }
      }
      rest
  }

  /** `d.get(key, default)`. */
  function GetOr<K(==), V>(d: seq<(K, V)>, key: K, default: V): (r: V)
    ensures !HasKey(d, key) ==> r == default
    ensures HasKey(d, key) ==> (key, r) in d
  {
    match Get(d, key)
    case None => default
    case Some(v) => v
  }

  /**
   * `d[key] = value`: an existing key keeps its position and takes the new
   * value, a new key goes to the end.
   */
  function Put<K(==,!new), V>(d: seq<(K, V)>, key: K, value: V): (r: seq<(K, V)>)
    ensures Get(r, key) == Some(value)
    ensures forall k :: k != key ==> Get(r, k) == Get(d, k)
    ensures |r| == if HasKey(d, key) then |d| else |d| + 1
    ensures forall e :: e in r ==> e == (key, value) || e in d
  {
    if d == [] then [(key, value)]
    else if d[0].0 == key then [(key, value)] + d[1..]
    else
      var rest := Put(d[1..], key, value);
      assert HasKey(d, key) <==> HasKey(d[1..], key) by {
        if HasKey(d, key) {
          var i :| 0 <= i < |d| && d[i].0 == key;
          assert d[1..][i - 1].0 == key;
        }
      }
      [d[0]] + rest
  }

  /** `del d[key]` when present; nothing happens when absent. */
  function Remove<K(==,!new), V>(d: seq<(K, V)>, key: K): (r: seq<(K, V)>)
    ensures Get(r, key) == None
    ensures forall k :: k != key ==> Get(r, k) == Get(d, k)
    ensures |r| <= |d|
  {
    if d == [] then []
    else if d[0].0 == key then Remove(d[1..], key)
    else [d[0]] + Remove(d[1..], key)
  }

  /** Concatenation is associative. */
  lemma AppendAssoc<T>(a: seq<T>, b: seq<T>, c: seq<T>)
    ensures a + (b + c) == a + b + c
  {
  }

  /** The state after `step` ran over the first `n` elements of `xs`, in order. */
  function FoldLeft<T, S>(xs: seq<T>, n: nat, init: S, step: (S, T) -> S): S
    requires n <= |xs|
  {
    if n == 0 then init else step(FoldLeft(xs, n - 1, init, step), xs[n - 1])
  }

  /** One more step of the fold. */
  lemma FoldLeftNext<T, S>(xs: seq<T>, n: nat, init: S, step: (S, T) -> S)
    requires n < |xs|
    ensures FoldLeft(xs, n + 1, init, step) == step(FoldLeft(xs, n, init, step), xs[n])
  {
  }

  /** The prefix before an appended element is the original sequence. */
  lemma SnocTake<T>(s: seq<T>, x: T)
    ensures (s + [x])[..|s|] == s && (s + [x])[|s|] == x
  {
  }

  /** The prefix one element longer, seen from its own end. */
  lemma PrefixStep<T>(s: seq<T>, i: nat)
    requires i < |s|
    ensures s[..i + 1][..i] == s[..i] && s[..i + 1][i] == s[i]
  {
  }

  /** The whole sequence as a prefix of itself. */
  lemma TakeAll<T>(s: seq<T>)
    ensures s[..|s|] == s
  {
  }

  /** Growing a prefix by one element. */
  lemma TakeSnoc<T>(s: seq<T>, i: nat)
    requires i < |s|
    ensures s[..i + 1] == s[..i] + [s[i]]
  {
  }

  /** A non-empty sequence is its head followed by its tail. */
  lemma HeadTail<T>(s: seq<T>)
    requires s != []
    ensures s == [s[0]] + s[1..]
  {
  }

  /** A sequence is its prefix up to `k` followed by the rest. */
  lemma SplitAt<T>(s: seq<T>, k: nat)
    requires k <= |s|
    ensures s == s[..k] + s[k..]
  {
  }

  /** Appending nothing changes nothing. */
  lemma AppendNothing<T>(a: seq<T>)
    ensures a + [] == a
  {
  }

  /** Dropping the last element of a concatenation drops it from the right part. */
  lemma AppendDropLast<T>(a: seq<T>, b: seq<T>)
    requires b != []
    ensures (a + b)[..|a + b| - 1] == a + b[..|b| - 1]
    ensures (a + b)[|a + b| - 1] == b[|b| - 1]
  {
  }

  /** The tail of a sequence's prefix is the prefix of its tail. */
  lemma TailOfInit<T>(s: seq<T>)
    requires |s| > 1
    ensures s[..|s| - 1][1..] == s[1..][..|s| - 2]
    ensures s[1..][|s| - 2] == s[|s| - 1]
  {
  }

  /** An element of a concatenation comes from its left or its right part. */
  lemma InConcat<T>(a: seq<T>, b: seq<T>, i: int)
    requires 0 <= i < |a| + |b|
    ensures i < |a| ==> (a + b)[i] in a
    ensures |a| <= i ==> (a + b)[i] in b
  {
    if i < |a| {
      assert (a + b)[i] == a[i];
    } else {
      assert (a + b)[i] == b[i - |a|];
    }
  }

  /** Removing a key a second time changes nothing. */
  lemma {:induction false} RemoveTwice<K(!new), V>(d: seq<(K, V)>, key: K)
    ensures Remove(Remove(d, key), key) == Remove(d, key)
  {
    if d != [] {
      RemoveTwice(d[1..], key);
    }
  }

  /** `list(d.values())`. */
  function Values<K, V>(d: seq<(K, V)>): (r: seq<V>)
    ensures |r| == |d|
    ensures forall i :: 0 <= i < |d| ==> r[i] == d[i].1
  {
    seq(|d|, i requires 0 <= i < |d| => d[i].1)
  }

  /** `s` is `t` with some elements left out, the rest in their order. */
  predicate IsSubsequence<T(==)>(s: seq<T>, t: seq<T>)
  {
    if t == [] then s == []
    else
      || (s != [] && s[|s| - 1] == t[|t| - 1] && IsSubsequence(s[..|s| - 1], t[..|t| - 1]))
      || IsSubsequence(s, t[..|t| - 1])
  }

  /** No key occurs twice, as in every Python dict and every directory listing. */
  predicate DistinctKeys<K(==), V>(d: seq<(K, V)>)
  {
    forall i, j :: 0 <= i < j < |d| ==> d[i].0 != d[j].0
  }

  /** Python's `bool(v)` for a JSON value. */
  predicate Truthy(v: Json)
  {
    match v
    case JNull => false
    case JBool(b) => b
    case JInt(i) => i != 0
    case JFloat(f) => f != 0.0
    case JStr(s) => s != ""
    case JList(items) => items != []
    case JObj(fields) => fields != []
  }

  /** The string inside a JSON value, when it is one. */
  function AsStr(v: Json): Option<string>
  {
    if v.JStr? then Some(v.s) else None
  }

  // ---------------------------------------------------------------
  // Character classes
  // ---------------------------------------------------------------

  /** The characters for which Python's `str.isspace()` holds (and that `\s` matches). */
  predicate IsSpace(c: char)
  {
    c == ' ' || ('\t' <= c <= '\r') || ('\U{1C}' <= c <= '\U{1F}') || c == '\U{85}'
    || c == '\U{A0}' || c == '\U{1680}' || ('\U{2000}' <= c <= '\U{200A}')
    || c == '\U{2028}' || c == '\U{2029}' || c == '\U{202F}' || c == '\U{205F}' || c == '\U{3000}'
  }

  predicate IsAsciiDigit(c: char) { '0' <= c <= '9' }

  predicate IsAsciiUpper(c: char) { 'A' <= c <= 'Z' }

  predicate IsAsciiLower(c: char) { 'a' <= c <= 'z' }

  predicate IsAsciiLetter(c: char) { IsAsciiUpper(c) || IsAsciiLower(c) }

  predicate IsAsciiAlnum(c: char) { IsAsciiLetter(c) || IsAsciiDigit(c) }

  /** Upper-case letters of the Latin-1 block, which `lower()` maps 32 code points up. */
  predicate IsLatinUpper(c: char) { IsAsciiUpper(c) || ('\U{C0}' <= c <= '\U{DE}' && c != '\U{D7}') }

  predicate IsLatinLower(c: char) { IsAsciiLower(c) || ('\U{E0}' <= c <= '\U{FE}' && c != '\U{F7}') }

  function LowerChar(c: char): (r: char)
    ensures !IsLatinUpper(r)
    ensures !IsLatinUpper(c) ==> r == c
  {
    if IsLatinUpper(c) then (c as int + 32) as char else c
  }

  function UpperChar(c: char): (r: char)
    ensures !IsLatinLower(r)
    ensures !IsLatinLower(c) ==> r == c
  {
    if IsLatinLower(c) then (c as int - 32) as char else c
  }

  /** `s.lower()`. */
  function Lower(s: string): (r: string)
    ensures |r| == |s|
    ensures forall i :: 0 <= i < |s| ==> r[i] == LowerChar(s[i])
  {
    seq(|s|, i requires 0 <= i < |s| => LowerChar(s[i]))
  }

  /** `s.upper()`. */
  function Upper(s: string): (r: string)
    ensures |r| == |s|
    ensures forall i :: 0 <= i < |s| ==> r[i] == UpperChar(s[i])
  {
    seq(|s|, i requires 0 <= i < |s| => UpperChar(s[i]))
  }

  /** `s.capitalize()`: the first character upper-cased and the rest lower-cased. */
  function Capitalize(s: string): (r: string)
    ensures |r| == |s|
    ensures forall i :: 0 < i < |s| ==> r[i] == LowerChar(s[i])
    ensures s != [] ==> !IsLatinLower(r[0])
  {
    if s == [] then [] else [UpperChar(s[0])] + Lower(s[1..])
  }

  /** Capitalising twice is capitalising once. */
  lemma CapitalizeIdempotent(s: string)
    ensures Capitalize(Capitalize(s)) == Capitalize(s)
  {
    if s != [] {
      var c := Capitalize(s);
      assert c[1..] == Lower(s[1..]);
      LowerIdempotent(s[1..]);
    }
  }

  lemma LowerIdempotent(s: string)
    ensures Lower(Lower(s)) == Lower(s)
  {
  }

  // ---------------------------------------------------------------
  // strip
  // ---------------------------------------------------------------

  /** The number of whitespace characters at the front of `s`. */
  function LeadingSpaces(s: string): (n: nat)
    ensures n <= |s|
    ensures n < |s| ==> !IsSpace(s[n])
  {
    if s == [] || !IsSpace(s[0]) then 0 else 1 + LeadingSpaces(s[1..])
  }

  lemma {:induction false} LeadingSpacesAreSpaces(s: string, i: int)
    requires 0 <= i < LeadingSpaces(s)
    ensures IsSpace(s[i])
  {
    if i > 0 { LeadingSpacesAreSpaces(s[1..], i - 1); }
  }

  /** The index where the whitespace at the back of `s` begins. */
  function TrailingStart(s: string): (n: nat)
    ensures n <= |s|
    ensures n > 0 ==> !IsSpace(s[n - 1])
  {
    if s == [] || !IsSpace(s[|s| - 1]) then |s| else TrailingStart(s[..|s| - 1])
  }

  lemma {:induction false} TrailingSpacesAreSpaces(s: string, i: int)
    requires TrailingStart(s) <= i < |s|
    ensures IsSpace(s[i])
  {
    if i < |s| - 1 { TrailingSpacesAreSpaces(s[..|s| - 1], i); }
  }

  /** `s.lstrip()`. */
  function LStrip(s: string): (r: string)
    ensures |r| <= |s|
    ensures r == [] || !IsSpace(r[0])
  {
    s[LeadingSpaces(s)..]
  }

  /** `s.strip()`: the slice of `s` between its leading and its trailing whitespace. */
  function Strip(s: string): (r: string)
    ensures |r| <= |s|
    ensures r == [] || (!IsSpace(r[0]) && !IsSpace(r[|r| - 1]))
  {
    var a := LeadingSpaces(s);
    var b := TrailingStart(s);
    if b <= a then [] else s[a..b]
  }

  /** `s.strip()` is a contiguous slice of `s`. */
  lemma StripSlice(s: string) returns (k: nat)
    ensures k + |Strip(s)| <= |s| && Strip(s) == s[k..k + |Strip(s)|]
  {
    k := LeadingSpaces(s);
    if TrailingStart(s) <= k { k := 0; }
  }

  /** `s.strip()` is empty exactly when `s` is all whitespace. */
  lemma StripEmptyIffAllSpace(s: string)
    ensures Strip(s) == [] <==> forall i :: 0 <= i < |s| ==> IsSpace(s[i])
  {
    var a := LeadingSpaces(s);
    var b := TrailingStart(s);
    if Strip(s) == [] {
      forall i | 0 <= i < |s| ensures IsSpace(s[i]) {
        if i < a { LeadingSpacesAreSpaces(s, i); } else { TrailingSpacesAreSpaces(s, i); }
      }
    }
  }

  /** Stripping a string without surrounding whitespace leaves it alone. */
  lemma StripUnchanged(s: string)
    requires s == [] || (!IsSpace(s[0]) && !IsSpace(s[|s| - 1]))
    ensures Strip(s) == s
  {
    assert LeadingSpaces(s) == 0;
    assert TrailingStart(s) == |s|;
  }

  /** `s.rstrip(c)`: every trailing occurrence of `c` removed. */
  function RStripChar(s: string, c: char): (r: string)
    ensures |r| <= |s| && r == s[..|r|]
    ensures r == [] || r[|r| - 1] != c
    ensures forall i :: |r| <= i < |s| ==> s[i] == c
  {
    if s != [] && s[|s| - 1] == c then RStripChar(s[..|s| - 1], c) else s
  }

  /** Python's `a <= b` on strings: code point by code point, a prefix first. */
  predicate StrLe(a: string, b: string)
  {
    a == [] || (b != [] && (a[0] < b[0] || (a[0] == b[0] && StrLe(a[1..], b[1..]))))
  }

  lemma {:induction false} StrLeTotal(a: string, b: string)
    ensures StrLe(a, b) || StrLe(b, a)
  {
    if a != [] && b != [] && a[0] == b[0] { StrLeTotal(a[1..], b[1..]); }
  }

  lemma {:induction false} StrLeTrans(a: string, b: string, c: string)
    requires StrLe(a, b) && StrLe(b, c)
    ensures StrLe(a, c)
  {
    if a != [] && a[0] == b[0] && b[0] == c[0] { StrLeTrans(a[1..], b[1..], c[1..]); }
  }

  // ---------------------------------------------------------------
  // Searching
  // ---------------------------------------------------------------

  /** `s.find(c)` for one character: the first index of `c`, or -1. */
  function FindChar(s: string, c: char): (r: int)
    ensures -1 <= r < |s|
    ensures r == -1 <==> c !in s
    ensures r >= 0 ==> s[r] == c && c !in s[..r]
  {
    if s == [] then -1
    else if s[0] == c then 0
    else
      var k := FindChar(s[1..], c);
      if k < 0 then -1
      else
        assert s[..k + 1] == [s[0]] + s[1..][..k];
        k + 1
  }

  /** `sub in s` for strings. */
  predicate ContainsSub(s: string, sub: string)
  {
    exists i | 0 <= i <= |s| - |sub| :: OccursAt(s, sub, i)
  }

  /** `sub` occurs in `s` starting at index `i`. */
  predicate OccursAt(s: string, sub: string, i: int)
  {
    0 <= i <= |s| - |sub| && s[i..i + |sub|] == sub
  }

  /** `s.endswith(suffix)`. */
  predicate EndsWith(s: string, suffix: string)
  {
    |suffix| <= |s| && s[|s| - |suffix|..] == suffix
  }

  /** `s.startswith(prefix)`. */
  predicate StartsWith(s: string, prefix: string)
  {
    |prefix| <= |s| && s[..|prefix|] == prefix
  }

  // ---------------------------------------------------------------
  // split and join on one separator character
  // ---------------------------------------------------------------

  /** `s.split(sep)`: always at least one piece, and no piece holds `sep`. */
  function Split(s: string, sep: char): (r: seq<string>)
    ensures |r| >= 1
    ensures forall p :: p in r ==> sep !in p
    decreases |s|
  {
    var k := FindChar(s, sep);
    if k < 0 then [s] else [s[..k]] + Split(s[k + 1..], sep)
  }

  /** `sep.join(parts)`. */
  function Join(parts: seq<string>, sep: char): string
  {
    if parts == [] then []
    else if |parts| == 1 then parts[0]
    else parts[0] + [sep] + Join(parts[1..], sep)
  }

  /** Joining the pieces of a split gives back the original string. */
  lemma {:induction false} JoinSplit(s: string, sep: char)
    ensures Join(Split(s, sep), sep) == s
    decreases |s|
  {
    var k := FindChar(s, sep);
    if k >= 0 {
      var rest := Split(s[k + 1..], sep);
      var parts := Split(s, sep);
      assert parts == [s[..k]] + rest;
      assert parts[1..] == rest;
      JoinSplit(s[k + 1..], sep);
      assert Join(parts, sep) == s[..k] + [sep] + Join(rest, sep);
      assert s == s[..k] + [sep] + s[k + 1..];
    }
  }

  /** Splitting a join of separator-free pieces gives back the pieces. */
  lemma {:induction false} SplitJoin(parts: seq<string>, sep: char)
    requires |parts| >= 1
    requires forall p :: p in parts ==> sep !in p
    ensures Split(Join(parts, sep), sep) == parts
  {
    if |parts| > 1 {
      var s, a, b := Join(parts, sep), parts[0], Join(parts[1..], sep);
      assert s == a + [sep] + b;
      AppendAssoc(a, [sep], b);
      assert s[|a|] == sep;
      assert s[..|a|] == a;
      assert sep !in a;
      assert FindChar(s, sep) == |a|;
      assert s[|a| + 1..] == b;
      SplitJoin(parts[1..], sep);
    }
  }

  // ---------------------------------------------------------------
  // Decimal digits: `str.isdigit`, `int(s)` and `str(n)`
  // ---------------------------------------------------------------

  /** `s.isdigit()` over ASCII digits: non-empty and only digits. */
  predicate IsDigits(s: string)
  {
    |s| > 0 && forall i :: 0 <= i < |s| ==> IsAsciiDigit(s[i])
  }

  /** `int(s)` for a string of decimal digits. */
  function DigitsValue(s: string): (n: nat)
    requires forall i :: 0 <= i < |s| ==> IsAsciiDigit(s[i])
  {
    if s == [] then 0
    else
      var d := s[|s| - 1];
      assert IsAsciiDigit(d);
      DigitsValue(s[..|s| - 1]) * 10 + (d as int - '0' as int)
  }

  /** `str(n)` for a natural number. */
  function NatToString(n: nat): (r: string)
    ensures IsDigits(r)
  {
    if n < 10 then [('0' as int + n) as char]
    else NatToString(n / 10) + [('0' as int + n % 10) as char]
  }

  /** `int(str(n)) == n`. */
  lemma {:induction false} DigitsValueOfNatToString(n: nat)
    ensures DigitsValue(NatToString(n)) == n
  {
    var s := NatToString(n);
    if n >= 10 {
      DigitsValueOfNatToString(n / 10);
      assert s[..|s| - 1] == NatToString(n / 10);
    }
  }

  /** Distinct numbers print as distinct strings. */
  lemma NatToStringInjective(m: nat, n: nat)
    requires NatToString(m) == NatToString(n)
    ensures m == n
  {
    DigitsValueOfNatToString(m);
    DigitsValueOfNatToString(n);
  }

  // ---------------------------------------------------------------
  // Python iteration and hashing of JSON values
  // ---------------------------------------------------------------

  /** A value Python can hash: anything but a list or a dict. */
  predicate Hashable(v: Json) { !v.JList? && !v.JObj? }

  /**
   * What `for prod in data` visits: the items of a list, the keys of a dict,
   * the one-character strings of a string; any other value is not iterable.
   */
  function Iterated(data: Json): (r: Result<seq<Json>>)
    ensures data.JList? ==> r == Ok(data.items)
    ensures data.JObj? ==> r.Ok? && |r.value| == |data.fields|
    ensures data.JStr? ==> r.Ok? && |r.value| == |data.s| && forall i :: 0 <= i < |data.s| ==> r.value[i] == JStr([data.s[i]])
    ensures r.Err? <==> !(data.JList? || data.JObj? || data.JStr?)
  {
    match data
    case JList(items) => Ok(items)
    case JObj(fields) => Ok(seq(|fields|, i requires 0 <= i < |fields| => JStr(fields[i].0)))
    case JStr(s) => Ok(seq(|s|, i requires 0 <= i < |s| => JStr([s[i]])))
    case _ => Err("TypeError")
  }

  // ---------------------------------------------------------------
  // float() of a JSON value
  // ---------------------------------------------------------------

  /** The value of `v` when `isinstance(v, (int, float))` holds (a bool is an int in Python). */
  function NumericValue(v: Json): (r: Option<real>)
    ensures r.Some? <==> v.JInt? || v.JFloat? || v.JBool?
  {
    match v
    case JInt(i) => Some(i as real)
    case JFloat(f) => Some(f)
    case JBool(b) => Some(if b then 1.0 else 0.0)
    case _ => None
  }

  /**
   * `float(v)`: numbers and bools convert, a string converts when `parse`
   * accepts it, and null, lists and objects raise TypeError.
   */
  function FloatOf(v: Json, parse: string -> Option<real>): (r: Option<real>)
    ensures NumericValue(v).Some? ==> r == NumericValue(v)
    ensures v.JNull? || v.JList? || v.JObj? ==> r.None?
  {
    if v.JStr? then parse(v.s) else NumericValue(v)
  }
}
