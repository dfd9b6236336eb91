/**
 * Directories as the scripts see them through `os.listdir`, `os.path.getmtime`
 * and `json.load`: each directory is the list of its entries in listing
 * order, and a file carries its modification time and, when it parses, its
 * JSON content.
 */
module FileSystem {
  import opened Common

  /**
   * One directory entry. `isFile` is false for a sub-directory; `content` is
   * None when `json.load` of the entry would raise (not JSON, or not a file).
   */
  datatype FileEntry = FileEntry(isFile: bool, mtime: int, content: Option<Json>)

  /** A directory: its entries by name, in the order `os.listdir` returns them. */
  type Dir = seq<(string, FileEntry)>

  /** `os.path.join(a, b)` on POSIX: an absolute `b` replaces `a`, otherwise one '/' separates them. */
  function PathJoin(a: string, b: string): (r: string)
    ensures b != [] && b[0] == '/' ==> r == b
    ensures (b == [] || b[0] != '/') && a != [] && a[|a| - 1] != '/' ==> r == a + "/" + b
  {
    if b != [] && b[0] == '/' then b
    else if a == [] || a[|a| - 1] == '/' then a + b
    else a + "/" + b
  }

  /** `name.lower().endswith(ext.lower())`. */
  predicate HasExtension(name: string, ext: string)
  {
    EndsWith(Lower(name), Lower(ext))
  }

  /** The entries whose name has the extension, in listing order. */
  function WithExtension(d: Dir, ext: string): (r: Dir)
    ensures |r| <= |d|
    ensures forall e :: e in r <==> e in d && HasExtension(e.0, ext)
  {
    if d == [] then []
    else
      var rest := WithExtension(d[1..], ext);
      assert forall e :: e in d <==> e == d[0] || e in d[1..];
      if HasExtension(d[0].0, ext) then [d[0]] + rest else rest
  }

  // ---------------------------------------------------------------
  // max(files, key=os.path.getmtime)
  // ---------------------------------------------------------------

  /**
   * The index `max(..., key=getmtime)` picks: a latest entry, and the first
   * of the latest ones in listing order; -1 for an empty list.
   */
  function NewestIndex(d: Dir): (i: int)
    ensures -1 <= i < |d|
    ensures i == -1 <==> d == []
    ensures i >= 0 ==> forall j :: 0 <= j < |d| ==> d[j].1.mtime <= d[i].1.mtime
    ensures i >= 0 ==> forall j :: 0 <= j < i ==> d[j].1.mtime < d[i].1.mtime
  {
    if d == [] then -1
    else
      var k := NewestIndex(d[..|d| - 1]);
      if k == -1 || d[|d| - 1].1.mtime > d[k].1.mtime then |d| - 1 else k
  }

  /**
   * `obtener_archivo_mas_reciente`: the name of the latest entry with the
   * extension, or None when there is none or the directory cannot be listed.
   */
  function NewestFile(d: Option<Dir>, ext: string): (r: Option<string>)
    ensures r.None? <==> d.None? || WithExtension(d.value, ext) == []
  {
    if d.None? then None
    else
      var js := WithExtension(d.value, ext);
      var i := NewestIndex(js);
      if i < 0 then None else Some(js[i].0)
  }

  /** The entry `NewestFile` names is one of the directory's, and no entry with the extension is later. */
  lemma NewestFileIsLatest(d: Dir, ext: string)
    requires NewestFile(Some(d), ext).Some?
    ensures exists e :: e in d && e.0 == NewestFile(Some(d), ext).value && HasExtension(e.0, ext)
                        && forall f :: f in d && HasExtension(f.0, ext) ==> f.1.mtime <= e.1.mtime
  {
    var js := WithExtension(d, ext);
    var i := NewestIndex(js);
    var e := js[i];
    assert e in js;
    forall f | f in d && HasExtension(f.0, ext) ensures f.1.mtime <= e.1.mtime {
      assert f in js;
      var j :| 0 <= j < |js| && js[j] == f;
    }
  }

  // ---------------------------------------------------------------
  // files.sort(key=getmtime, reverse=True)
  // ---------------------------------------------------------------

  predicate NewestFirst(d: Dir)
  {
    forall i, j :: 0 <= i < j < |d| ==> d[i].1.mtime >= d[j].1.mtime
  }

  /** The position of the first entry that is not later than `e`. */
  function InsertIndex(e: (string, FileEntry), d: Dir): (k: nat)
    ensures k <= |d|
    ensures forall j :: 0 <= j < k ==> d[j].1.mtime > e.1.mtime
    ensures k < |d| ==> e.1.mtime >= d[k].1.mtime
  {
    if d == [] || e.1.mtime >= d[0].1.mtime then 0 else 1 + InsertIndex(e, d[1..])
  }

  /** Puts `e` before the first entry that is not later than it. */
  function InsertByMtime(e: (string, FileEntry), d: Dir): (r: Dir)
    requires NewestFirst(d)
    ensures NewestFirst(r)
    ensures multiset(r) == multiset(d) + multiset{e}
  {
    var k := InsertIndex(e, d);
    InsertKeepsOrder(e, d, k);
    assert d == d[..k] + d[k..];
    d[..k] + [e] + d[k..]
  }

  lemma InsertKeepsOrder(e: (string, FileEntry), d: Dir, k: nat)
    requires NewestFirst(d) && k <= |d|
    requires forall j :: 0 <= j < k ==> d[j].1.mtime > e.1.mtime
    requires k < |d| ==> e.1.mtime >= d[k].1.mtime
    ensures NewestFirst(d[..k] + [e] + d[k..])
  {
    var r := d[..k] + [e] + d[k..];
    forall i, j | 0 <= i < j < |r| ensures r[i].1.mtime >= r[j].1.mtime {
      if i < k && j > k { assert r[j] == d[j - 1]; }
      else if i == k && j > k { assert r[j] == d[j - 1]; assert d[k].1.mtime >= d[j - 1].1.mtime; }
      else if i > k { assert r[i] == d[i - 1] && r[j] == d[j - 1]; }
    }
  }

  /** A stable sort, latest first, as Python's `sort(..., reverse=True)`. */
  function ByMtimeDesc(d: Dir): (r: Dir)
    ensures NewestFirst(r)
    ensures multiset(r) == multiset(d)
  {
    if d == [] then []
    else
      assert d == [d[0]] + d[1..];
      InsertByMtime(d[0], ByMtimeDesc(d[1..]))
  }

  /** `d[:n]`. */
  function Take(d: Dir, n: nat): (r: Dir)
    ensures |r| == if n < |d| then n else |d|
  {
    if n < |d| then d[..n] else d
  }

  /**
   * The `n` latest entries of `d` by modification time: every entry taken
   * is at least as recent as every entry left, and together they are `d`.
   */
  function Latest(d: Dir, n: nat): Dir
  {
    Take(ByMtimeDesc(d), n)
  }

  lemma LatestAreNewest(d: Dir, n: nat) returns (rest: Dir)
    ensures |Latest(d, n)| == if n < |d| then n else |d|
    ensures multiset(Latest(d, n)) + multiset(rest) == multiset(d)
    ensures forall i, j :: 0 <= i < |Latest(d, n)| && 0 <= j < |rest| ==> Latest(d, n)[i].1.mtime >= rest[j].1.mtime
  {
    var s := ByMtimeDesc(d);
    assert |s| == |d| by { assert |multiset(s)| == |multiset(d)|; }
    var k := if n < |s| then n else |s|;
    var taken := s[..k];
    rest := s[k..];
    assert Latest(d, n) == taken;
    assert multiset(taken) + multiset(rest) == multiset(d) by { assert s == taken + rest; }
    forall i, j | 0 <= i < |taken| && 0 <= j < |rest| ensures taken[i].1.mtime >= rest[j].1.mtime {
      assert taken[i] == s[i] && rest[j] == s[k + j];
    }
  }
}
