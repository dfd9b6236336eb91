/**
 * The two FTP downloads of the snapshot pipeline (`descargar_archivo` and
 * `descargar_y_validar_json`). The FTP session is an oracle: the model is
 * given, attempt by attempt, what the transfer produced.
 */
module Descarga {
  import opened Common
  import opened FileSystem

  const MaxAttempts: nat := 3

  /** Seconds waited after a failed attempt that is not the last. */
  const RetryPauseSeconds: nat := 30

  /**
   * `descargar_archivo`: `succeeds[i]` says whether attempt `i + 1` would
   * succeed. At most three attempts, the first success ends the loop, and a
   * pause follows every failed attempt but the last.
   */
  method DownloadFile(succeeds: seq<bool>) returns (ok: bool, attempts: nat, pauses: nat)
    requires |succeeds| == MaxAttempts
    ensures 1 <= attempts <= MaxAttempts
    ensures ok <==> true in succeeds
    ensures ok ==> succeeds[attempts - 1] && forall j :: 0 <= j < attempts - 1 ==> !succeeds[j]
    ensures !ok ==> attempts == MaxAttempts
    ensures pauses == attempts - 1
  {
    ok, attempts, pauses := false, 0, 0;
    var intento := 1;
    while intento <= MaxAttempts
      invariant 1 <= intento <= MaxAttempts + 1
      invariant attempts == intento - 1
      invariant forall j :: 0 <= j < attempts ==> !succeeds[j]
      invariant pauses == if attempts < MaxAttempts then attempts else MaxAttempts - 1
    {
      attempts := intento;
      if succeeds[intento - 1] {
        ok := true;
        return;
      }
      if intento < MaxAttempts {
        pauses := pauses + 1;
      }
      intento := intento + 1;
    }
  }

  /** What one attempt of `descargar_y_validar_json` brought back. */
  datatype Transfer =
    | TransferFailed                     // connection, login or transfer raised
    | Received(payload: Option<Json>)    // the temp file was written; None when `json.load` rejects it

  predicate Valid(t: Transfer) { t.Received? && t.payload.Some? }

  /** Some transfer among the first `n` wrote the temp file. */
  predicate ReceivedAmong(transfers: seq<Transfer>, n: nat)
    requires n <= |transfers|
  {
    n > 0 && (transfers[n - 1].Received? || ReceivedAmong(transfers, n - 1))
  }

  /** The directory once `temp` is gone and `final` holds `e`. */
  lemma ReplaceTemp(dir: Dir, temp: string, final: string, e: FileEntry)
    requires temp != final
    ensures Get(Put(Remove(dir, temp), final, e), final) == Some(e)
    ensures Get(Put(Remove(dir, temp), final, e), temp) == None
    ensures forall n :: n != temp && n != final ==> Get(Put(Remove(dir, temp), final, e), n) == Get(dir, n)
  {
  }

  /**
   * `descargar_y_validar_json` over the directory holding `temp` and `final`,
   * with `now` the time stamp of the files written. A received payload is
   * written to `temp`; if it parses, `temp` is renamed to `final` and the
   * download ends; if not, `temp` is deleted and the attempt counts as failed.
   */
  method DownloadAndValidate(dir: Dir, temp: string, final: string, transfers: seq<Transfer>, now: int)
    returns (ok: bool, dir': Dir, attempts: nat)
    requires |transfers| == MaxAttempts
    requires temp != final
    ensures 1 <= attempts <= MaxAttempts
    ensures ok <==> exists i :: 0 <= i < MaxAttempts && Valid(transfers[i])
    ensures ok ==> Valid(transfers[attempts - 1]) && forall j :: 0 <= j < attempts - 1 ==> !Valid(transfers[j])
    ensures !ok ==> attempts == MaxAttempts
    ensures ok ==> Get(dir', final) == Some(FileEntry(true, now, transfers[attempts - 1].payload))
    ensures !ok ==> Get(dir', final) == Get(dir, final)
    ensures Get(dir', final) != Get(dir, final) ==> Get(dir', final).Some? && Get(dir', final).value.content.Some?
    ensures forall n :: n != temp && n != final ==> Get(dir', n) == Get(dir, n)
    ensures Get(dir', temp) == if ReceivedAmong(transfers, attempts) then None else Get(dir, temp)
    ensures dir' == if ok then Put(Remove(dir, temp), final, FileEntry(true, now, transfers[attempts - 1].payload))
                    else if ReceivedAmong(transfers, attempts) then Remove(dir, temp) else dir
  {
    ok, dir', attempts := false, dir, 0;
    var intento := 1;
    while intento <= MaxAttempts && !ok
      invariant 1 <= intento <= MaxAttempts + 1
      invariant attempts == intento - 1
      invariant forall j :: 0 <= j < attempts - 1 ==> !Valid(transfers[j])
      invariant ok ==> attempts >= 1 && Valid(transfers[attempts - 1])
      invariant !ok ==> forall j :: 0 <= j < attempts ==> !Valid(transfers[j])
      invariant dir' == if ok then Put(Remove(dir, temp), final, FileEntry(true, now, transfers[attempts - 1].payload))
                        else if ReceivedAmong(transfers, attempts) then Remove(dir, temp) else dir
    {
      attempts := intento;
      var t := transfers[intento - 1];
      if t.Received? {
        // the payload is written to `temp`, which is then renamed to `final` or deleted
        var withoutTemp := Remove(dir', temp);
        RemoveTwice(dir, temp);
        if t.payload.Some? {
          dir' := Put(withoutTemp, final, FileEntry(true, now, t.payload));
          ok := true;
        } else {
          dir' := withoutTemp;
        }
      }
      intento := intento + 1;
    }
    if ok {
      ReplaceTemp(dir, temp, final, FileEntry(true, now, transfers[attempts - 1].payload));
    }
  }
}
