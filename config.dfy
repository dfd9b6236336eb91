// The shared configuration module: required environment variables and
// the table of working directories every job reads its paths from. A
// path is the sequence of its components; the installation root is
// whatever `INSTALL_ROOT` resolves to.

module Config {
  import opened Common

  type Path = seq<string>

  // ---------------------------------------------------------------
  // must_get
  // ---------------------------------------------------------------

  /**
   * `must_get(key)`: an unset or empty variable raises EnvironmentError;
   * otherwise the value with its surrounding whitespace removed.
   */
  function MustGet(env: map<string, string>, key: string): (r: Result<string>)
    ensures r.Err? <==> key !in env || env[key] == ""
    ensures r.Ok? ==> r.value == [] || (!IsSpace(r.value[0]) && !IsSpace(r.value[|r.value| - 1]))
    ensures r.Ok? ==> |r.value| <= |env[key]|
  {
    if key !in env || env[key] == "" then Err("EnvironmentError: " + key + " is not defined")
    else Ok(Strip(env[key]))
  }

  /** The value read is a contiguous piece of the variable's text. */
  lemma MustGetIsSlice(env: map<string, string>, key: string) returns (k: nat)
    requires MustGet(env, key).Ok?
    ensures k + |MustGet(env, key).value| <= |env[key]|
    ensures MustGet(env, key).value == env[key][k..k + |MustGet(env, key).value|]
  {
    k := StripSlice(env[key]);
  }

  /** A whitespace-only value passes the emptiness test and reads as "". */
  lemma BlankValueReadsEmpty(env: map<string, string>, key: string)
    requires key in env && env[key] != ""
    ensures MustGet(env, key) == Ok("") <==> forall i :: 0 <= i < |env[key]| ==> IsSpace(env[key][i])
  {
    StripEmptyIffAllSpace(env[key]);
  }

  // ---------------------------------------------------------------
  // The directory table
  // ---------------------------------------------------------------

  /** A path relative to `INSTALL_ROOT/Master`. */
  type Rel = seq<string>

  function MasterDir(root: Path): Path { root + ["Master"] }

  const ApiRel: Rel := ["Programas", "API"]
  const AplicacionRel: Rel := ["Programas", "Aplicacion"]
  const ResultadoRel: Rel := ["Proceso", "Resultado"]
  const RespaldoRel: Rel := ["Proceso", "Respaldo"]
  const InformacionRel: Rel := ["Proceso", "Informacion"]

  /** The working sub-directories, each with a result and a backup copy. */
  const Subdirs: seq<string> := [
    "Antiguo", "BaseCompletaJSON", "BasesJSON", "BasesTonersJSON",
    "Comun", "Final", "Nuevo", "CoincidenciasSinExistencias",
    "ProcesoDeImagenes", "FichasTecnicas", "InformacionTablas"
  ]

  const BackupSuffix: string := "_respaldo"

  const IconKey: string := "IconoBitAndByte"
  const IconFile: string := "IconoBitAndByte1000x1000.png"

  /** The entries written out before the working sub-directories. */
  const LeadingEntries: seq<(string, Rel)> := [
    ("Carrito", ApiRel + ["Carrito"]),
    ("Existencias", ApiRel + ["Existencias"]),
    ("Configuracion", AplicacionRel + ["Configuracion"]),
    ("Plantillas", AplicacionRel + ["Plantillas"])
  ]

  /** The entries written out after them; the last is the logo file. */
  const TrailingEntries: seq<(string, Rel)> := [
    ("ArchivosOrganizados", InformacionRel + ["ArchivosOrganizados"]),
    ("Conversion", InformacionRel + ["Conversion"]),
    ("ImagenesProcesadasCT", InformacionRel + ["ImagenesProcesadasCT"]),
    (IconKey, ["Proceso", IconFile])
  ]

  /** A dict display of explicit entries: a later entry overwrites an earlier one with the same key. */
  function Build(root: Path, entries: seq<(string, Rel)>): (m: map<string, Path>)
    ensures m.Keys == set e | e in entries :: e.0
    ensures forall k :: k in m ==> exists e :: e in entries && e.0 == k && m[k] == MasterDir(root) + e.1
  {
    if entries == [] then map[]
    else
      var last := entries[|entries| - 1];
      var m := Build(root, entries[..|entries| - 1])[last.0 := MasterDir(root) + last.1];
      assert forall e :: e in entries <==> e in entries[..|entries| - 1] || e == last;
      m
  }

  /** `{name: RESULTADO_DIR / name for name in _SUBDIRS}` */
  function Results(root: Path, subdirs: seq<string>): map<string, Path>
  {
    map name | name in subdirs :: MasterDir(root) + ResultadoRel + [name]
  }

  /** `{f"{name}_respaldo": RESPALDO_DIR / name for name in _SUBDIRS}` */
  function Backups(root: Path, subdirs: seq<string>): map<string, Path>
  {
    BackupKeysInjective();
    map name | name in subdirs :: name + BackupSuffix := MasterDir(root) + RespaldoRel + [name]
  }

  /** The dict display of `DIRECTORIOS`, each part overriding the ones before it. */
  function Table(root: Path, leading: seq<(string, Rel)>, subdirs: seq<string>, trailing: seq<(string, Rel)>): map<string, Path>
  {
    Build(root, leading) + Results(root, subdirs) + Backups(root, subdirs) + Build(root, trailing)
  }

  /** `DIRECTORIOS` for the installation root `root`. */
  function Directorios(root: Path): map<string, Path>
  {
    Table(root, LeadingEntries, Subdirs, TrailingEntries)
  }

  lemma BackupKeysInjective()
    ensures forall a, b :: a + BackupSuffix == b + BackupSuffix ==> a == b
  {
    forall a, b | a + BackupSuffix == b + BackupSuffix ensures a == b {
      assert a == (a + BackupSuffix)[..|a|];
      assert b == (b + BackupSuffix)[..|b|];
    }
  }

  function Keys(entries: seq<(string, Rel)>): set<string>
  {
    set e | e in entries :: e.0
  }

  /**
   * Every path of the table is `INSTALL_ROOT/Master` followed by a
   * non-empty relative path whose last component is the last component
   * of an explicit entry or a working sub-directory name.
   */
  lemma TableShape(root: Path, leading: seq<(string, Rel)>, subdirs: seq<string>, trailing: seq<(string, Rel)>)
    requires forall e :: e in leading + trailing ==> e.1 != []
    ensures forall k :: k in Table(root, leading, subdirs, trailing) ==>
      var p := Table(root, leading, subdirs, trailing)[k];
      && |MasterDir(root)| < |p| && p[..|MasterDir(root)|] == MasterDir(root)
      && ((exists e :: e in leading + trailing && p == MasterDir(root) + e.1) || p[|p| - 1] in subdirs)
  {
    var m := MasterDir(root);
    forall k | k in Table(root, leading, subdirs, trailing)
      ensures var p := Table(root, leading, subdirs, trailing)[k];
        && |m| < |p| && p[..|m|] == m
        && ((exists e :: e in leading + trailing && p == m + e.1) || p[|p| - 1] in subdirs)
    {
      var p := Table(root, leading, subdirs, trailing)[k];
      if k in Build(root, trailing) {
        var e :| e in trailing && e.0 == k && p == m + e.1;
        assert e in leading + trailing;
      } else if k in Backups(root, subdirs) {
        var name :| name in subdirs && k == name + BackupSuffix;
        BackupAt(root, subdirs, name);
      } else if k in Results(root, subdirs) {
        assert p == m + ResultadoRel + [k];
      } else {
        var e :| e in leading && e.0 == k && p == m + e.1;
        assert e in leading + trailing;
      }
      assert p[..|m|] == m;
    }
  }

  /** Every path of `DIRECTORIOS` lies strictly under `INSTALL_ROOT/Master`. */
  lemma AllUnderMaster(root: Path)
    ensures forall k :: k in Directorios(root) ==>
      |MasterDir(root)| < |Directorios(root)[k]| && Directorios(root)[k][..|MasterDir(root)|] == MasterDir(root)
  {
    ExplicitEntriesNonEmpty();
    TableShape(root, LeadingEntries, Subdirs, TrailingEntries);
  }

  /**
   * When no sub-directory name is an explicit key, and none is another
   * name with the backup suffix, each name maps to `Resultado/name` and
   * `name_respaldo` to `Respaldo/name`.
   */
  lemma TableSubdirEntries(root: Path, leading: seq<(string, Rel)>, subdirs: seq<string>, trailing: seq<(string, Rel)>)
    requires forall n :: n in subdirs ==> n !in Keys(leading) && n !in Keys(trailing) && n + BackupSuffix !in Keys(trailing)
    requires forall a, b :: a in subdirs && b in subdirs ==> a != b + BackupSuffix
    ensures forall n :: n in subdirs ==>
      var t := Table(root, leading, subdirs, trailing);
      && n in t && t[n] == MasterDir(root) + ResultadoRel + [n]
      && n + BackupSuffix in t && t[n + BackupSuffix] == MasterDir(root) + RespaldoRel + [n]
  {
    var t := Table(root, leading, subdirs, trailing);
    forall n | n in subdirs
      ensures n in t && t[n] == MasterDir(root) + ResultadoRel + [n]
      ensures n + BackupSuffix in t && t[n + BackupSuffix] == MasterDir(root) + RespaldoRel + [n]
    {
      assert n !in Build(root, trailing);
      assert n + BackupSuffix !in Build(root, trailing);
      assert n !in Backups(root, subdirs);
      BackupAt(root, subdirs, n);
    }
  }

  lemma BackupAt(root: Path, subdirs: seq<string>, n: string)
    requires n in subdirs
    ensures n + BackupSuffix in Backups(root, subdirs)
    ensures Backups(root, subdirs)[n + BackupSuffix] == MasterDir(root) + RespaldoRel + [n]
  {
    BackupKeysInjective();
  }

  /** For each of the working sub-directories: `name -> Resultado/name`, `name_respaldo -> Respaldo/name`. */
  lemma ResultAndBackupEntries(root: Path)
    ensures forall n :: n in Subdirs ==>
      && n in Directorios(root) && Directorios(root)[n] == MasterDir(root) + ResultadoRel + [n]
      && n + BackupSuffix in Directorios(root) && Directorios(root)[n + BackupSuffix] == MasterDir(root) + RespaldoRel + [n]
  {
    SubdirsNotExplicitKeys();
    SubdirsNotBackupKeys();
    TableSubdirEntries(root, LeadingEntries, Subdirs, TrailingEntries);
  }

  lemma ExplicitEntriesNonEmpty()
    ensures forall e :: e in LeadingEntries + TrailingEntries ==> e.1 != []
  {
  }

  lemma SubdirsNotExplicitKeys()
    ensures forall n :: n in Subdirs ==> n !in Keys(LeadingEntries) && n !in Keys(TrailingEntries)
  {
  }

  lemma SubdirsNotBackupKeys()
    ensures forall n :: n in Subdirs ==> n + BackupSuffix !in Keys(TrailingEntries)
    ensures forall a, b :: a in Subdirs && b in Subdirs ==> a != b + BackupSuffix
  {
    forall a, b | a in Subdirs && b in Subdirs ensures a != b + BackupSuffix {
      NoUnderscoreInSubdirs();
      assert (b + BackupSuffix)[|b|] == '_';
    }
  }

  lemma NoUnderscoreInSubdirs()
    ensures forall n :: n in Subdirs ==> '_' !in n
  {
  }

  // ---------------------------------------------------------------
  // Creating the directories
  // ---------------------------------------------------------------

  /** The index of the last occurrence of `c` in `s`, or -1 (`str.rfind`). */
  function LastIndexOf(s: string, c: char): (i: int)
    ensures -1 <= i < |s|
    ensures i >= 0 ==> s[i] == c
    ensures forall j :: i < j < |s| ==> s[j] != c
    ensures i == -1 <==> c !in s
  {
    if s == [] then -1
    else if s[|s| - 1] == c then |s| - 1
    else LastIndexOf(s[..|s| - 1], c)
  }

  /**
   * `Path.suffix` is not empty: the last component has a dot that is
   * neither its first nor its last character.
   */
  predicate HasSuffix(p: Path)
  {
    p != [] && 0 < LastIndexOf(p[|p| - 1], '.') < |p[|p| - 1]| - 1
  }

  /** `mkdir(parents=True)`: the path and every ancestor of it. */
  function WithAncestors(p: Path): set<Path>
  {
    set i | 1 <= i <= |p| :: p[..i]
  }

  /** The directories the creation loop makes: every path it passes to `mkdir`, with its ancestors. */
  function Targets(items: seq<(string, Path)>): (r: set<Path>)
    ensures forall p :: p in r <==> exists e :: e in items && !HasSuffix(e.1) && p in WithAncestors(e.1)
  {
    if items == [] then {}
    else
      var last := items[|items| - 1];
      var r := Targets(items[..|items| - 1]) + (if HasSuffix(last.1) then {} else WithAncestors(last.1));
      assert forall e :: e in items <==> e in items[..|items| - 1] || e == last;
      r
  }

  /**
   * The creation loop over `DIRECTORIOS.items()`: an entry whose path has
   * a suffix is skipped, every other path is created. `mkdirOk` says
   * whether `mkdir` succeeds for a path; a failure raises and ends the
   * loop, after the entries before it were created.
   */
  method CreateDirectories(items: seq<(string, Path)>, dirs: set<Path>, mkdirOk: Path -> bool)
    returns (dirs': set<Path>, ok: bool)
    ensures ok <==> forall e :: e in items && !HasSuffix(e.1) ==> mkdirOk(e.1)
    ensures ok ==> dirs' == dirs + Targets(items)
    ensures !ok ==>
      exists n :: (0 <= n < |items| && dirs' == dirs + Targets(items[..n])
                   && !HasSuffix(items[n].1) && !mkdirOk(items[n].1))
  {
    dirs' := dirs;
    var i := 0;
    while i < |items|
      invariant 0 <= i <= |items|
      invariant forall e :: e in items[..i] && !HasSuffix(e.1) ==> mkdirOk(e.1)
      invariant dirs' == dirs + Targets(items[..i])
    {
      var e := items[i];
      assert items[..i + 1][..i] == items[..i];
      if !HasSuffix(e.1) {
        if !mkdirOk(e.1) {
          return dirs', false;
        }
        dirs' := dirs' + WithAncestors(e.1);
      }
      i := i + 1;
    }
    assert items[..i] == items;
    ok := true;
  }

  /** A path whose last component has no dot has no suffix. */
  lemma NoDotNoSuffix(p: Path)
    requires p != [] && '.' !in p[|p| - 1]
    ensures !HasSuffix(p)
  {
  }

  /** The logo file's place in the table. */
  function IconPath(root: Path): Path { MasterDir(root) + ["Proceso", IconFile] }

  /**
   * The logo is the only entry whose path has a suffix, so the creation
   * loop skips it and creates every other entry.
   */
  lemma OnlyIconHasSuffix(root: Path)
    ensures IconKey in Directorios(root) && Directorios(root)[IconKey] == IconPath(root)
    ensures HasSuffix(IconPath(root))
    ensures forall k :: k in Directorios(root) && HasSuffix(Directorios(root)[k]) ==> Directorios(root)[k] == IconPath(root)
  {
    var d := Directorios(root);
    var trailing := Build(root, TrailingEntries);
    assert TrailingEntries[|TrailingEntries| - 1] == (IconKey, ["Proceso", IconFile]);
    assert trailing == Build(root, TrailingEntries[..3])[IconKey := IconPath(root)];
    IconFileHasSuffix();
    ExplicitLastComponents();
    NoDotInSubdirs();
    TableSuffixes(root, LeadingEntries, Subdirs, TrailingEntries, ["Proceso", IconFile]);
  }

  /**
   * When every explicit entry but `special` and every sub-directory name
   * ends in a component without a dot, only `special` can have a suffix.
   */
  lemma TableSuffixes(root: Path, leading: seq<(string, Rel)>, subdirs: seq<string>, trailing: seq<(string, Rel)>, special: Rel)
    requires forall e :: e in leading + trailing ==> e.1 != [] && ('.' !in e.1[|e.1| - 1] || e.1 == special)
    requires forall n :: n in subdirs ==> '.' !in n
    ensures forall k :: k in Table(root, leading, subdirs, trailing) && HasSuffix(Table(root, leading, subdirs, trailing)[k]) ==>
      Table(root, leading, subdirs, trailing)[k] == MasterDir(root) + special
  {
    var d := Table(root, leading, subdirs, trailing);
    TableShape(root, leading, subdirs, trailing);
    forall k | k in d && HasSuffix(d[k]) ensures d[k] == MasterDir(root) + special {
      EntrySuffix(MasterDir(root), d[k], leading + trailing, subdirs, special);
    }
  }

  /** One entry of the table: a path with a suffix must be `special`. */
  lemma EntrySuffix(m: Path, p: Path, entries: seq<(string, Rel)>, subdirs: seq<string>, special: Rel)
    requires forall e :: e in entries ==> e.1 != [] && ('.' !in e.1[|e.1| - 1] || e.1 == special)
    requires forall n :: n in subdirs ==> '.' !in n
    requires |m| < |p|
    requires (exists e :: e in entries && p == m + e.1) || p[|p| - 1] in subdirs
    requires HasSuffix(p)
    ensures p == m + special
  {
    if e :| e in entries && p == m + e.1 {
      assert p[|p| - 1] == e.1[|e.1| - 1];
      if e.1 != special {
        NoDotNoSuffix(p);
      }
    } else {
      NoDotNoSuffix(p);
    }
  }

  lemma IconFileHasSuffix()
    ensures LastIndexOf(IconFile, '.') == 24 && |IconFile| == 28
  {
    var s := IconFile;
    assert s[27] == 'g' && s[26] == 'n' && s[25] == 'p' && s[24] == '.';
    assert s[..27][..26] == s[..26] && s[..26][..25] == s[..25];
    assert LastIndexOf(s, '.') == LastIndexOf(s[..27], '.');
    assert LastIndexOf(s[..27], '.') == LastIndexOf(s[..26], '.');
    assert LastIndexOf(s[..26], '.') == LastIndexOf(s[..25], '.');
  }

  lemma ExplicitLastComponents()
    ensures forall e :: e in LeadingEntries + TrailingEntries ==>
      e.1 != [] && ('.' !in e.1[|e.1| - 1] || e.1 == ["Proceso", IconFile])
  {
    LeadingLastComponents();
    TrailingLastComponents();
  }

  lemma LeadingLastComponents()
    ensures forall e :: e in LeadingEntries ==> e.1 != [] && '.' !in e.1[|e.1| - 1]
  {
  }

  lemma TrailingLastComponents()
    ensures forall e :: e in TrailingEntries ==> e.1 != [] && ('.' !in e.1[|e.1| - 1] || e.1 == ["Proceso", IconFile])
  {
  }

  lemma NoDotInSubdirs()
    ensures forall n :: n in Subdirs ==> '.' !in n
  {
  }
}
