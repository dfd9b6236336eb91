/**
 * `mover_a_respaldo` and `respaldar_archivos`: during the ten minutes after
 * midnight, the regular files of each result directory move into a folder
 * of the day before under its backup directory; for the snapshot
 * categories the newest `.json` file stays behind.
 */
module Backup {
  import opened Common
  import opened FileSystem

  /** The window closes ten minutes after midnight, in microseconds, and its end is included. */
  const WindowEnd: nat := 10 * 60 * 1000000

  /** `inicio_respaldo <= ahora <= fin_respaldo`, with `timeOfDay` the microseconds since midnight. */
  predicate InWindow(timeOfDay: nat) { timeOfDay <= WindowEnd }

  /** The categories whose newest file is kept. */
  const KeepNewestCategories: seq<string> := ["Antiguo", "Nuevo", "Comun", "BaseCompletaJSON", "Final"]

  /** The names of a list of entries, in order. */
  function Names(d: Dir): (r: seq<string>)
    ensures |r| == |d| && forall i :: 0 <= i < |d| ==> r[i] == d[i].0
  {
    seq(|d|, i requires 0 <= i < |d| => d[i].0)
  }

  /** The regular files of `src` whose name is not excluded, in listing order. */
  function ToMove(src: Dir, excl: seq<string>): (r: Dir)
    ensures forall e :: e in r <==> e in src && e.1.isFile && e.0 !in excl
  {
    if src == [] then []
    else
      assert forall e :: e in src <==> e == src[0] || e in src[1..];
      (if src[0].1.isFile && src[0].0 !in excl then [src[0]] else []) + ToMove(src[1..], excl)
  }

  /** The index of the first file whose move raises, or the number of files when none does. */
  function FailAt(moves: Dir, failing: set<string>): (k: nat)
    ensures k <= |moves|
    ensures k < |moves| ==> moves[k].0 in failing
    ensures forall j :: 0 <= j < k ==> moves[j].0 !in failing
  {
    if moves == [] then 0
    else if moves[0].0 in failing then 0
    else 1 + FailAt(moves[1..], failing)
  }

  /** The source directory once `moves` have left it. */
  function RemoveNames(d: Dir, moves: Dir): Dir
  {
    if moves == [] then d else Remove(RemoveNames(d, moves[..|moves| - 1]), moves[|moves| - 1].0)
  }

  /** The backup folder once `moves` have arrived; a file already there is replaced. */
  function PutEntries(d: Dir, moves: Dir): Dir
  {
    if moves == [] then d else Put(PutEntries(d, moves[..|moves| - 1]), moves[|moves| - 1].0, moves[|moves| - 1].1)
  }

  /**
   * `mover_a_respaldo(origen, destino, excluir)`: the count of files and of
   * moved files, and both directories afterwards. `src` is None when the
   * listing raises; `failing` names the files whose move raises. A failure
   * leaves the files moved so far where they went and reports (0, 0).
   */
  function MoveResult(src: Option<Dir>, dst: Dir, excl: seq<string>, failing: set<string>): (nat, nat, Option<Dir>, Dir)
  {
    if src.None? then (0, 0, src, dst)
    else
      var moves := ToMove(src.value, excl);
      var k := FailAt(moves, failing);
      var src' := Some(RemoveNames(src.value, moves[..k]));
      var dst' := PutEntries(dst, moves[..k]);
      if k == |moves| then (|moves|, |moves|, src', dst') else (0, 0, src', dst')
  }

  // ---------------------------------------------------------------
  // The move loop
  // ---------------------------------------------------------------

  lemma MovePrefixSnoc(src: Dir, dst: Dir, moves: Dir, i: nat)
    requires i < |moves|
    ensures RemoveNames(src, moves[..i + 1]) == Remove(RemoveNames(src, moves[..i]), moves[i].0)
    ensures PutEntries(dst, moves[..i + 1]) == Put(PutEntries(dst, moves[..i]), moves[i].0, moves[i].1)
  {
    assert moves[..i + 1][..i] == moves[..i];
  }

  /** The loop of `mover_a_respaldo`: moves the files in order until one raises. */
  method MoveFiles(src: Dir, dst: Dir, lista: Dir, failing: set<string>) returns (k: nat, src': Dir, dst': Dir)
    ensures k == FailAt(lista, failing)
    ensures src' == RemoveNames(src, lista[..k]) && dst' == PutEntries(dst, lista[..k])
  {
    src', dst' := src, dst;
    k := 0;
    while k < |lista|
      invariant k <= FailAt(lista, failing)
      invariant src' == RemoveNames(src, lista[..k])
      invariant dst' == PutEntries(dst, lista[..k])
    {
      if lista[k].0 in failing {
        return;
      }
      MovePrefixSnoc(src, dst, lista, k);
      src' := Remove(src', lista[k].0);
      dst' := Put(dst', lista[k].0, lista[k].1);
      k := k + 1;
    }
  }

  method MoveToBackup(src: Option<Dir>, dst: Dir, excl: seq<string>, failing: set<string>)
    returns (archivos: nat, movidos: nat, src': Option<Dir>, dst': Dir)
    ensures (archivos, movidos, src', dst') == MoveResult(src, dst, excl, failing)
  {
    if src.None? {
      return 0, 0, src, dst;
    }
    var archivosLista := ToMove(src.value, excl);
    if archivosLista == [] {
      return 0, 0, src, dst;
    }
    var k, origen, destino := MoveFiles(src.value, dst, archivosLista, failing);
    if k < |archivosLista| {
      return 0, 0, Some(origen), destino;
    }
    return |archivosLista|, |archivosLista|, Some(origen), destino;
  }

  lemma {:induction false} FailAtNone(moves: Dir, failing: set<string>)
    requires forall j :: 0 <= j < |moves| ==> moves[j].0 !in failing
    ensures FailAt(moves, failing) == |moves|
  {
    if moves != [] {
      FailAtNone(moves[1..], failing);
    }
  }

  // ---------------------------------------------------------------
  // What a move does to the two directories
  // ---------------------------------------------------------------

  /** A name is gone from the source exactly when one of the moved files carries it. */
  lemma {:induction false} RemoveNamesGet(d: Dir, moves: Dir, n: string)
    ensures Get(RemoveNames(d, moves), n) == if n in Names(moves) then None else Get(d, n)
  {
    if moves != [] {
      var init := moves[..|moves| - 1];
      RemoveNamesGet(d, init, n);
      assert Names(moves) == Names(init) + [moves[|moves| - 1].0];
    }
  }

  /** A moved file is found in the backup folder unless a later moved file has the same name. */
  lemma {:induction false} PutEntriesGet(d: Dir, moves: Dir, i: nat)
    requires i < |moves|
    requires forall j :: i < j < |moves| ==> moves[j].0 != moves[i].0
    ensures Get(PutEntries(d, moves), moves[i].0) == Some(moves[i].1)
  {
    if i < |moves| - 1 {
      var init := moves[..|moves| - 1];
      PutEntriesGet(d, init, i);
    }
  }

  /** Names the moves do not carry keep what the backup folder held. */
  lemma {:induction false} PutEntriesOthers(d: Dir, moves: Dir, n: string)
    requires n !in Names(moves)
    ensures Get(PutEntries(d, moves), n) == Get(d, n)
  {
    if moves != [] {
      var init := moves[..|moves| - 1];
      assert Names(moves) == Names(init) + [moves[|moves| - 1].0];
      PutEntriesOthers(d, init, n);
    }
  }

  // ---------------------------------------------------------------
  // respaldar_archivos
  // ---------------------------------------------------------------

  /**
   * One entry of `DIRECTORIOS_RESULTADOS` with what the run finds: its
   * directory (None when it cannot be listed), the dated backup folder
   * (None when the category has no backup directory), whether creating that
   * folder raises, and the files whose move raises.
   */
  datatype Category = Category(clave: string, dir: Option<Dir>, backup: Option<Dir>, mkdirFails: bool, failing: set<string>)

  /** The names kept back: the newest `.json` file for the snapshot categories. */
  function Excluded(c: Category): (r: seq<string>)
    ensures |r| <= 1
    ensures r != [] <==> c.clave in KeepNewestCategories && NewestFile(c.dir, ".json").Some?
    ensures r != [] ==> r == [NewestFile(c.dir, ".json").value]
  {
    if c.clave in KeepNewestCategories then
      match NewestFile(c.dir, ".json")
      case None => []
      case Some(n) => [n]
    else []
  }

  /** The category after its backup, with the two counts it adds to the totals. */
  function BackupCategory(c: Category): (Category, nat, nat)
  {
    if c.backup.None? || c.mkdirFails then (c, 0, 0)
    else
      var (archivos, movidos, dir', backup') := MoveResult(c.dir, c.backup.value, Excluded(c), c.failing);
      (c.(dir := dir', backup := Some(backup')), archivos, movidos)
  }

  /** The files counted in the first `n` categories. */
  function TotalArchivos(cats: seq<Category>, n: nat): nat
    requires n <= |cats|
  {
    if n == 0 then 0 else TotalArchivos(cats, n - 1) + BackupCategory(cats[n - 1]).1
  }

  /** The files moved in the first `n` categories. */
  function TotalMovidos(cats: seq<Category>, n: nat): nat
    requires n <= |cats|
  {
    if n == 0 then 0 else TotalMovidos(cats, n - 1) + BackupCategory(cats[n - 1]).2
  }

  /** One category of the loop in `respaldar_archivos`. */
  method BackupOne(c: Category) returns (c': Category, archivos: nat, movidos: nat)
    ensures (c', archivos, movidos) == BackupCategory(c)
  {
    if c.backup.None? || c.mkdirFails {
      return c, 0, 0;
    }
    var dir', backup';
    archivos, movidos, dir', backup' := MoveToBackup(c.dir, c.backup.value, Excluded(c), c.failing);
    c' := c.(dir := dir', backup := Some(backup'));
  }

  /** `respaldar_archivos`: outside the window nothing happens; inside it, every category is backed up in turn. */
  method RunBackup(timeOfDay: nat, cats: seq<Category>)
    returns (ran: bool, cats': seq<Category>, totalArchivos: nat, totalMovidos: nat)
    ensures ran <==> InWindow(timeOfDay)
    ensures !ran ==> cats' == cats && totalArchivos == 0 && totalMovidos == 0
    ensures ran ==> |cats'| == |cats| && forall i :: 0 <= i < |cats| ==> cats'[i] == BackupCategory(cats[i]).0
    ensures ran ==> totalArchivos == TotalArchivos(cats, |cats|) && totalMovidos == TotalMovidos(cats, |cats|)
  {
    if !InWindow(timeOfDay) {
      return false, cats, 0, 0;
    }
    ran, cats', totalArchivos, totalMovidos := true, [], 0, 0;
    var i := 0;
    while i < |cats|
      invariant 0 <= i <= |cats|
      invariant |cats'| == i && forall j :: 0 <= j < i ==> cats'[j] == BackupCategory(cats[j]).0
      invariant totalArchivos == TotalArchivos(cats, i) && totalMovidos == TotalMovidos(cats, i)
    {
      var c', archivos, movidos := BackupOne(cats[i]);
      cats' := cats' + [c'];
      totalArchivos := totalArchivos + archivos;
      totalMovidos := totalMovidos + movidos;
      i := i + 1;
    }
  }

  // ---------------------------------------------------------------
  // What the backup guarantees
  // ---------------------------------------------------------------

  /** In a snapshot category, the newest `.json` file is still in place after the backup. */
  lemma NewestSurvives(c: Category, n: string)
    requires c.clave in KeepNewestCategories && NewestFile(c.dir, ".json") == Some(n)
    ensures c.dir.Some? && BackupCategory(c).0.dir.Some?
    ensures Get(BackupCategory(c).0.dir.value, n) == Get(c.dir.value, n)
  {
    if c.backup.Some? && !c.mkdirFails {
      var moves := ToMove(c.dir.value, Excluded(c));
      var k := FailAt(moves, c.failing);
      assert Excluded(c) == [n];
      assert n !in Names(moves[..k]);
      RemoveNamesGet(c.dir.value, moves[..k], n);
    }
  }

  /** The files a backup leaves in place when no move fails: only the kept one and what is not a regular file. */
  lemma EverythingElseMoves(c: Category, n: string)
    requires c.dir.Some? && DistinctKeys(c.dir.value) && c.backup.Some? && !c.mkdirFails
    requires forall e :: e in ToMove(c.dir.value, Excluded(c)) ==> e.0 !in c.failing
    requires HasKey(c.dir.value, n) && Get(c.dir.value, n).value.isFile && n !in Excluded(c)
    ensures Get(BackupCategory(c).0.dir.value, n) == None
    ensures Get(BackupCategory(c).0.backup.value, n) == Get(c.dir.value, n)
  {
    var src := c.dir.value;
    var moves := ToMove(src, Excluded(c));
    FailAtNone(moves, c.failing);
    assert moves[..|moves|] == moves;
    var e := (n, Get(src, n).value);
    assert e in moves;
    var i :| 0 <= i < |moves| && moves[i] == e;
    assert Names(moves)[i] == n;
    RemoveNamesGet(src, moves, n);
    forall j | i < j < |moves| ensures moves[j].0 != n {
      ToMoveDistinct(src, Excluded(c));
    }
    PutEntriesGet(c.backup.value, moves, i);
  }

  lemma {:induction false} ToMoveDistinct(src: Dir, excl: seq<string>)
    requires DistinctKeys(src)
    ensures DistinctKeys(ToMove(src, excl))
  {
    if src != [] {
      ToMoveDistinct(src[1..], excl);
      var rest := ToMove(src[1..], excl);
      forall e | e in rest ensures e.0 != src[0].0 {
        var j :| 0 <= j < |src[1..]| && src[1..][j] == e;
        assert src[j + 1] == e;
      }
    }
  }

  /** Outside the window the directories are untouched; a category without a backup directory is skipped. */
  lemma SkippedCategoriesUnchanged(c: Category)
    requires c.backup.None? || c.mkdirFails || c.dir.None?
    ensures BackupCategory(c).0 == c && BackupCategory(c).1 == 0 && BackupCategory(c).2 == 0
  {
  }
}
