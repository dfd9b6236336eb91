/**
 * `ejecutar_proceso`: the stages of one run of the snapshot pipeline, in
 * order. Any stage that raises ends the run, so no later stage (the backup
 * included) takes place. The log, the pauses and the timestamps are left
 * out; the clock, the FTP sessions and the count of the main feed are
 * given with the run.
 */
module Pipeline {
  import opened Common
  import opened FileSystem
  import opened Descarga
  import opened XmlConversion
  import opened ClaveOrder
  import opened Combination
  import opened Comparison
  import opened Backup

  const TempJson: string := "productos_temp.json"
  const DownloadedJson: string := "productos.json"
  const TonersXml: string := "productos_especiales_TXL0233.xml"
  const TonersJson: string := "productos_especiales_TXL0233.json"

  /** The files the run writes after the download; each `open(..., 'w')` and `json.dump` may raise, and the script re-raises. */
  datatype Write = TonersFile | CombinedFile | ComunesFile | NuevosFile | AntiguosFile | FinalFile | ReportFile

  /** What the run meets: transfers and parse results, the directories as they are when it starts, the clock. */
  datatype Run = Run(
    transfers: seq<Transfer>,        // the attempts of the main JSON feed download
    jsonCount: nat,                  // `contar_productos_json` of the renamed file
    xmlSucceeds: seq<bool>,          // the attempts of the XML feed download
    xmlRoot: Option<XmlNode>,        // the XML feed as parsed; None when it does not parse
    toFloat: string -> Option<real>, // `float(text)`
    basesJson: Dir,                  // BasesJSON
    basesToners: Dir,                // BasesTonersJSON
    baseCompleta: Dir,               // BaseCompletaJSON
    finalDir: Option<Dir>,           // Final; None when it cannot be listed
    stamp: string,                   // the `%d_%m_%Y_%H_%M_%S` timestamp of the files written
    now: int,                        // their modification time
    timeOfDay: nat,                  // microseconds since midnight when the backup starts
    categories: seq<Category>,       // given with the run: the result directories found when the backup starts
    writes: Write -> bool)           // whether writing each file succeeds

  predicate WellFormed(run: Run)
  {
    |run.transfers| == MaxAttempts && |run.xmlSucceeds| == MaxAttempts
  }

  datatype Stage =
    | DownloadJson | CountJson | DownloadXml | ConvertXml | CombineFeeds | CompareFinal
    | WriteDifferences | WriteFinal | WriteReport

  datatype Summary = Summary(json: nat, toners: nat, combinado: nat, nuevos: nat, comun: nat, antiguos: nat)

  datatype Outcome =
    | Failed(stage: Stage)
    | Completed(diff: Diff, files: seq<(string, string, seq<Json>)>, final: seq<Json>, summary: Summary,
                backupRan: bool, categories: seq<Category>)

  // ---------------------------------------------------------------
  // The data each stage produces
  // ---------------------------------------------------------------

  /** The first transfer that brought a payload which parses, or the number of transfers when none did. */
  function FirstValid(ts: seq<Transfer>): (k: nat)
    ensures k <= |ts|
    ensures k < |ts| ==> Valid(ts[k])
    ensures forall j :: 0 <= j < k ==> !Valid(ts[j])
  {
    if ts == [] then 0 else if Valid(ts[0]) then 0 else 1 + FirstValid(ts[1..])
  }

  predicate JsonOk(run: Run) { FirstValid(run.transfers) < |run.transfers| }

  /** `os.rename(src, dst)`: the entry takes its new name; a file already under that name is replaced. */
  function Rename(d: Dir, src: string, dst: string): Dir
    requires HasKey(d, src)
  {
    Put(Remove(d, src), dst, Get(d, src).value)
  }

  /** BasesJSON once the feed has been downloaded and renamed `productos_<stamp>.json`. */
  function JsonDir(run: Run): Dir
    requires JsonOk(run)
  {
    var payload := run.transfers[FirstValid(run.transfers)].payload;
    var downloaded := Put(Remove(run.basesJson, TempJson), DownloadedJson, FileEntry(true, run.now, payload));
    Rename(downloaded, DownloadedJson, "productos_" + run.stamp + ".json")
  }

  predicate XmlOk(run: Run) { true in run.xmlSucceeds }

  /** The XML parses, its converted file is written, and it holds at least one product. */
  predicate ConvertOk(run: Run) { run.xmlRoot.Some? && run.writes(TonersFile) && Productos(run.xmlRoot.value) != [] }

  function TonerProducts(run: Run): seq<Product>
    requires run.xmlRoot.Some?
  {
    ProductsOf(Productos(run.xmlRoot.value), run.toFloat)
  }

  /** BasesTonersJSON once the XML feed has been downloaded and converted. */
  function TonersDir(run: Run): Dir
    requires run.xmlRoot.Some?
  {
    var ps := TonerProducts(run);
    var xml := Put(run.basesToners, TonersXml, FileEntry(true, run.now, None));
    Put(xml, TonersJson, FileEntry(true, run.now, Some(JList(ProductsJson(ps)))))
  }

  /** What the combiner writes, with one file from each directory. */
  function Combined(run: Run): Result<seq<Json>>
    requires JsonOk(run) && run.xmlRoot.Some?
  {
    CombinedSnapshot(JsonDir(run), TonersDir(run), 1)
  }

  /** BaseCompletaJSON once the combined file has been written. */
  function CompletaDir(run: Run, out: seq<Json>): Dir
  {
    Put(run.baseCompleta, "archivo_combinado_" + run.stamp + ".json", FileEntry(true, run.now, Some(JList(out))))
  }

  /** The content of a listed file as `json.load` reads it; None when it does not parse or is not a file. */
  function ContentOf(d: Dir, name: string): Option<Json>
  {
    match Get(d, name)
    case None => None
    case Some(e) => if e.isFile then e.content else None
  }

  /**
   * The three lists: against the newest final snapshot when there is one;
   * otherwise every combined record is new, taken from the file as it is.
   */
  function DiffOf(run: Run, out: seq<Json>): Result<Diff>
  {
    var comb := CompletaDir(run, out);
    var newest := NewestFile(Some(comb), ".json");
    var combinado := if newest.Some? then ContentOf(comb, newest.value) else Some(JList(out));
    match NewestFile(run.finalDir, ".json")
    case Some(f) =>
      var final := ContentOf(run.finalDir.value, f);
      Compare(combinado, if final.Some? then Loaded(final.value) else Unreadable)
    case None =>
      if combinado.None? then Err("Error al leer el archivo combinado para asignar productos nuevos")
      else Ok(Diff(if combinado.value.JList? then combinado.value.items else [], [], []))
  }

  predicate CombineOk(run: Run) { JsonOk(run) && run.xmlRoot.Some? && Combined(run).Ok? && run.writes(CombinedFile) }

  predicate CompareOk(run: Run) { CombineOk(run) && DiffOf(run, Combined(run).value).Ok? }

  /** `generar_archivos_diferenciacion` writes comunes, nuevos and antiguos in turn; the first that fails raises. */
  predicate DifferencesWritten(run: Run) { run.writes(ComunesFile) && run.writes(NuevosFile) && run.writes(AntiguosFile) }

  /** Every stage up to the comparison succeeds. */
  predicate ComparedOk(run: Run)
  {
    JsonOk(run) && run.jsonCount > 0 && XmlOk(run) && ConvertOk(run) && CompareOk(run)
  }

  /** Every file after the comparison is written: the three lists, the final snapshot, the text report. */
  predicate OutputsWritten(run: Run) { DifferencesWritten(run) && run.writes(FinalFile) && run.writes(ReportFile) }

  // ---------------------------------------------------------------
  // The run
  // ---------------------------------------------------------------

  /**
   * A complete run: the three lists against the newest final snapshot, the
   * files written from them, the summary of the counts, and the backup when
   * the clock is in its window.
   */
  predicate CompletedAsSpecified(run: Run, r: Outcome)
    requires r.Completed?
  {
    CompareOk(run) && OutputsWritten(run) && r.diff == DiffOf(run, Combined(run).value).value
    && r.files == DifferenceFiles(r.diff) && r.final == FinalSnapshot(r.diff)
    && r.summary == Summary(run.jsonCount, |TonerProducts(run)|, |Combined(run).value|,
                            |r.diff.nuevos|, |r.diff.comun|, |r.diff.antiguos|)
    && (r.backupRan <==> InWindow(run.timeOfDay))
    && (!r.backupRan ==> r.categories == run.categories)
    && (r.backupRan ==> |r.categories| == |run.categories| &&
                        forall i :: 0 <= i < |run.categories| ==> r.categories[i] == BackupCategory(run.categories[i]).0)
  }

  /** `ejecutar_proceso`: the first stage that raises is the one reported; a complete run writes the files and then backs up. */
  method RunPipeline(run: Run) returns (r: Outcome)
    requires WellFormed(run)
    ensures r == Failed(DownloadJson) <==> !JsonOk(run)
    ensures r == Failed(CountJson) <==> JsonOk(run) && run.jsonCount == 0
    ensures r == Failed(DownloadXml) <==> JsonOk(run) && run.jsonCount > 0 && !XmlOk(run)
    ensures r == Failed(ConvertXml) <==> JsonOk(run) && run.jsonCount > 0 && XmlOk(run) && !ConvertOk(run)
    ensures r == Failed(CombineFeeds) <==> JsonOk(run) && run.jsonCount > 0 && XmlOk(run) && ConvertOk(run) && !CombineOk(run)
    ensures r == Failed(CompareFinal) <==> JsonOk(run) && run.jsonCount > 0 && XmlOk(run) && ConvertOk(run) && CombineOk(run) && !CompareOk(run)
    ensures r == Failed(WriteDifferences) <==> ComparedOk(run) && !DifferencesWritten(run)
    ensures r == Failed(WriteFinal) <==> ComparedOk(run) && DifferencesWritten(run) && !run.writes(FinalFile)
    ensures r == Failed(WriteReport) <==> ComparedOk(run) && DifferencesWritten(run) && run.writes(FinalFile) && !run.writes(ReportFile)
    ensures r.Completed? <==> ComparedOk(run) && OutputsWritten(run)
    ensures r.Completed? ==> CompletedAsSpecified(run, r)
  {
    var exitoJson, dirJson := JsonStage(run);
    if !exitoJson {
      return Failed(DownloadJson);
    }
    if run.jsonCount == 0 {
      return Failed(CountJson);
    }
    var exitoXml, _, _ := DownloadFile(run.xmlSucceeds);
    if !exitoXml {
      return Failed(DownloadXml);
    }
    var convertidos := XmlToJson(run.xmlRoot, run.toFloat);
    if convertidos.Err? || !run.writes(TonersFile) || |convertidos.value| == 0 {
      return Failed(ConvertXml);
    }
    var combinados := CombineStage(run, dirJson);
    if combinados.Err? || |combinados.value| == 0 {
      return Failed(CombineFeeds);
    }
    r := CompareAndWrite(run, combinados.value);
  }

  /** From the comparison on: the three lists, the files written from them, the summary and the backup. */
  method CompareAndWrite(run: Run, combinados: seq<Json>) returns (r: Outcome)
    requires CombineOk(run) && combinados == Combined(run).value
    ensures r.Failed? <==> !CompareOk(run) || !OutputsWritten(run)
    ensures r == Failed(CompareFinal) <==> !CompareOk(run)
    ensures r == Failed(WriteDifferences) <==> CompareOk(run) && !DifferencesWritten(run)
    ensures r == Failed(WriteFinal) <==> CompareOk(run) && DifferencesWritten(run) && !run.writes(FinalFile)
    ensures r == Failed(WriteReport) <==> CompareOk(run) && DifferencesWritten(run) && run.writes(FinalFile) && !run.writes(ReportFile)
    ensures r.Completed? ==> CompletedAsSpecified(run, r)
  {
    var diff := DiffOf(run, combinados);
    if diff.Err? {
      return Failed(CompareFinal);
    }
    if !run.writes(ComunesFile) || !run.writes(NuevosFile) || !run.writes(AntiguosFile) {
      return Failed(WriteDifferences);
    }
    if !run.writes(FinalFile) {
      return Failed(WriteFinal);
    }
    if !run.writes(ReportFile) {
      return Failed(WriteReport);
    }
    var ran, cats, _, _ := RunBackup(run.timeOfDay, run.categories);
    r := Completed(diff.value, DifferenceFiles(diff.value), FinalSnapshot(diff.value),
                   Summary(run.jsonCount, |TonerProducts(run)|, |combinados|,
                           |diff.value.nuevos|, |diff.value.comun|, |diff.value.antiguos|),
                   ran, cats);
  }

  /** The main feed: downloaded, validated and renamed. */
  method JsonStage(run: Run) returns (ok: bool, dir: Dir)
    requires WellFormed(run)
    ensures ok <==> JsonOk(run)
    ensures ok ==> dir == JsonDir(run)
  {
    var intentos;
    ok, dir, intentos := DownloadAndValidate(run.basesJson, TempJson, DownloadedJson, run.transfers, run.now);
    if ok {
      assert intentos - 1 == FirstValid(run.transfers);
      dir := Rename(dir, DownloadedJson, "productos_" + run.stamp + ".json");
    }
  }

  /** The combiner over the main feed directory and the converted toner feed, one file from each. */
  method CombineStage(run: Run, dirJson: Dir) returns (r: Result<seq<Json>>)
    requires JsonOk(run) && dirJson == JsonDir(run) && run.xmlRoot.Some?
    ensures r.Ok? <==> Combined(run).Ok? && run.writes(CombinedFile)
    ensures r.Ok? ==> r.value == Combined(run).value && |r.value| >= 1
  {
    r := Combine(dirJson, TonersDir(run), 1);
    if r.Ok? {
      CombinedSnapshotShape(JsonDir(run), TonersDir(run), 1);
      if !run.writes(CombinedFile) {
        r := Err("Error al escribir el archivo combinado");
      }
    }
  }

  // ---------------------------------------------------------------
  // Checks that never fire
  // ---------------------------------------------------------------

  /** A name `<prefix>.json` has the `.json` extension. */
  lemma JsonNameHasExtension(prefix: string)
    ensures HasExtension(prefix + ".json", ".json")
  {
    var name := prefix + ".json";
    assert Lower(name)[|name| - 5..] == Lower(".json");
  }

  /**
   * The combined file just written is listed, so a newest combined file
   * always exists and the fallback to the written path is never taken.
   */
  lemma CombinedFileListed(run: Run, out: seq<Json>)
    ensures NewestFile(Some(CompletaDir(run, out)), ".json").Some?
  {
    var name := "archivo_combinado_" + run.stamp + ".json";
    var d := CompletaDir(run, out);
    assert (name, FileEntry(true, run.now, Some(JList(out)))) in d;
    JsonNameHasExtension("archivo_combinado_" + run.stamp);
    assert (name, FileEntry(true, run.now, Some(JList(out)))) in WithExtension(d, ".json");
  }
}
