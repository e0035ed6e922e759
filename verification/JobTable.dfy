/** The jobs table, and boot recovery. */
module JobTable {
  import opened Text
  import opened Jobs
  import opened CopyProtocol
  import opened DestVolume
  import opened JobEvents

  datatype JobRow = JobRow(status: Status, error: string, finished: bool, filesTotal: nat, bytesTotal: nat,
                           filesSkipped: nat, filesCopied: nat, bytesCopied: nat, filesFailed: nat)

  type Rows = map<JobId, JobRow>

  /** UPDATE jobs SET status, error, finished_at WHERE id. */
  function WithFinish(r: JobRow, status: Status, error: string): JobRow {
    r.(status := status, error := error, finished := true)
  }

  /** What boot recovery does to a row: an interrupted job failed, an open question or a job
      that never started is cancelled (its error is not written). */
  function Recovered(r: JobRow, error: string): JobRow {
    match r.status
    case Copying => WithFinish(r, Failed, error)
    case Verifying => WithFinish(r, Failed, error)
    case AwaitingDecision => r.(status := Cancelled, finished := true)
    case Pending => r.(status := Cancelled, finished := true)
    case _ => r
  }

  function RecoveredAll(rows: Rows, error: string): Rows {
    map j | j in rows :: Recovered(rows[j], error)
  }

  /** A job that was being copied has failed, with the error; one that had not begun is cancelled, its
      error as it was; one that was over is as it was. No counter is lost. */
  predicate Settles(r: JobRow, r': JobRow, error: string) {
    && (r.status.Copying? || r.status.Verifying? ==> r'.status == Failed && r'.error == error && r'.finished)
    && (r.status.AwaitingDecision? || r.status.Pending? ==>
          r'.status == Cancelled && r'.error == r.error && r'.finished)
    && (r.status.Terminal() ==> r' == r)
    && r'.(status := r.status, error := r.error, finished := r.finished) == r
  }

  /** After recovery every job is over, as `Settles` says; none is done that was not done before. */
  lemma RecoveryIsTotal(rows: Rows, error: string, j: JobId)
    requires j in rows
    ensures var r, r' := rows[j], RecoveredAll(rows, error)[j];
      && Settles(r, r', error)
      && r'.status.Terminal() && (r'.status == Done ==> r.status == Done)
      && (r' == r || CanFollow(r.status, r'.status) || r.status.Verifying?)
  {
  }

  /** Recovering twice is recovering once. */
  lemma RecoveryIdempotent(rows: Rows, error: string, again: string)
    ensures RecoveredAll(RecoveredAll(rows, error), again) == RecoveredAll(rows, error)
  {
    forall j | j in rows
      ensures Recovered(Recovered(rows[j], error), again) == Recovered(rows[j], error)
    {
      RecoveryIsTotal(rows, error, j);
    }
  }

  function NewRow(status: Status): JobRow {
    JobRow(status, "", false, 0, 0, 0, 0, 0, 0)
  }

  // ---- what a run makes of its row --------------------------------------------------------

  /** The row after one effect of the run. */
  function Written(r: JobRow, e: Effect, error: string): JobRow {
    match e
    case WroteTotals(files, bytes, skipped) => r.(filesTotal := files, bytesTotal := bytes, filesSkipped := skipped)
    case WroteStatus(status) => if status.Terminal() then WithFinish(r, status, error) else r.(status := status)
    case WroteProgress(copied, bytes, failed) => r.(filesCopied := copied, bytesCopied := bytes, filesFailed := failed)
    case _ => r
  }

  function WrittenAll(r: JobRow, trace: seq<Effect>, error: string): JobRow {
    if trace == [] then r else Written(WrittenAll(r, trace[..|trace| - 1], error), trace[|trace| - 1], error)
  }

  /** After an accepted run the row has the status of its last event, and is finished, with its
      error, exactly if the job is over. */
  lemma {:induction false} RowFollowsRun(r: JobRow, trace: seq<Effect>, error: string)
    requires r.status.Pending? && !r.finished && !FollowAll(RUN_START, trace).phase.Illegal?
    ensures var row := WrittenAll(r, trace, error);
      && row.status == FollowAll(RUN_START, trace).status
      && (row.finished <==> row.status.Terminal())
      && (row.finished ==> row.error == error)
  {
    if trace != [] {
      RowFollowsRun(r, trace[..|trace| - 1], error);
    }
  }

  /** And the row has the numbers the run wrote last. */
  lemma {:induction false} RowHasNumbers(r: JobRow, trace: seq<Effect>, error: string)
    ensures var row, w := WrittenAll(r, trace, error), LastWrites(trace);
      && (row.filesTotal, row.bytesTotal, row.filesSkipped) ==
           (if w.totals.Some? then w.totals.value else (r.filesTotal, r.bytesTotal, r.filesSkipped))
      && (row.filesCopied, row.bytesCopied, row.filesFailed) ==
           (if w.progress.Some? then w.progress.value else (r.filesCopied, r.bytesCopied, r.filesFailed))
  {
    if trace != [] {
      RowHasNumbers(r, trace[..|trace| - 1], error);
    }
  }

  class JobRepo {
    var rows: Rows
    var nextId: JobId

    ghost predicate Valid()
      reads this
    {
      forall j :: j in rows ==> j < nextId
    }

    constructor ()
      ensures Valid() && rows == map[]
    {
      rows, nextId := map[], 1;
    }

    // `smooth`: no statement fails.

    /** Inserts a job under an id of its own; `None` if the insert fails. */
    method Create(status: Status, smooth: bool) returns (id: Option<JobId>)
      requires Valid()
      modifies this
      ensures Valid()
      ensures id.None? ==> rows == old(rows) && !smooth
      ensures id.Some? ==>
                id.value !in old(rows) && rows == old(rows)[id.value := JobRow(status, "", false, 0, 0, 0, 0, 0, 0)]
    {
      var ok: bool := *;
      if !ok && !smooth {
        return None;
      }
      id := Some(nextId);
      rows, nextId := rows[nextId := NewRow(status)], nextId + 1;
    }

    /** Writes an effect of the job's run to its row; `error` goes with a terminal status. */
    method Write(id: JobId, e: Effect, error: string)
      requires Valid() && id in rows
      modifies this`rows
      ensures Valid() && rows == old(rows)[id := Written(old(rows)[id], e, error)]
    {
      match e
      case WroteTotals(files, bytes, skipped) => SetTotals(id, files, bytes, skipped);
      case WroteStatus(status) =>
        if status.Terminal() {
          Finish(id, status, error);
        } else {
          SetStatus(id, status);
        }
      case WroteProgress(copied, bytes, failed) => UpdateProgress(id, copied, bytes, failed);
      case _ =>
    }

    method SetStatus(id: JobId, status: Status)
      requires Valid()
      modifies this`rows
      ensures Valid()
      ensures rows == if id in old(rows) then old(rows)[id := old(rows)[id].(status := status)] else old(rows)
    {
      if id in rows {
        rows := rows[id := rows[id].(status := status)];
      }
    }

    method SetTotals(id: JobId, filesTotal: nat, bytesTotal: nat, filesSkipped: nat)
      requires Valid()
      modifies this`rows
      ensures Valid()
      ensures rows == if id in old(rows)
                      then old(rows)[id := old(rows)[id].(filesTotal := filesTotal, bytesTotal := bytesTotal,
                                                          filesSkipped := filesSkipped)]
                      else old(rows)
    {
      if id in rows {
        rows := rows[id := rows[id].(filesTotal := filesTotal, bytesTotal := bytesTotal, filesSkipped := filesSkipped)];
      }
    }

    method UpdateProgress(id: JobId, filesCopied: nat, bytesCopied: nat, filesFailed: nat)
      requires Valid()
      modifies this`rows
      ensures Valid()
      ensures rows == if id in old(rows)
                      then old(rows)[id := old(rows)[id].(filesCopied := filesCopied, bytesCopied := bytesCopied,
                                                          filesFailed := filesFailed)]
                      else old(rows)
    {
      if id in rows {
        rows := rows[id := rows[id].(filesCopied := filesCopied, bytesCopied := bytesCopied,
                                     filesFailed := filesFailed)];
      }
    }

    method Finish(id: JobId, status: Status, error: string)
      requires Valid()
      modifies this`rows
      ensures Valid()
      ensures rows == if id in old(rows) then old(rows)[id := WithFinish(old(rows)[id], status, error)] else old(rows)
    {
      if id in rows {
        rows := rows[id := WithFinish(rows[id], status, error)];
      }
    }

    /** Two UPDATEs, interrupted jobs first; `n` counts them. Either may fail. */
    method FailInterrupted(error: string, smooth: bool) returns (ok: bool, n: nat)
      requires Valid()
      modifies this`rows
      ensures Valid() && rows.Keys == old(rows).Keys
      ensures ok ==> rows == RecoveredAll(old(rows), error)
      ensures smooth ==> ok
      ensures rows != old(rows) || ok ==>
                n == |set j | j in old(rows) && (old(rows)[j].status.Copying? || old(rows)[j].status.Verifying?)|
      ensures forall j :: j in rows ==> Settles(old(rows)[j], rows[j], error) || (!ok && rows[j] == old(rows)[j])
    {
      ok := *;
      if !ok && !smooth {
        return false, 0;
      }
      n := |set j | j in rows && (rows[j].status.Copying? || rows[j].status.Verifying?)|;
      rows := map j | j in rows ::
        if rows[j].status.Copying? || rows[j].status.Verifying? then WithFinish(rows[j], Failed, error) else rows[j];
      ok := *;
      ok := ok || smooth;
      if ok {
        CancelWaiting();
        forall j | j in rows ensures Settles(old(rows)[j], rows[j], error) {
          RecoveryIsTotal(old(rows), error, j);
        }
      }
    }

    /** The second UPDATE. */
    method CancelWaiting()
      requires Valid()
      modifies this`rows
      ensures Valid() && rows == map j | j in old(rows) ::
                if old(rows)[j].status.AwaitingDecision? || old(rows)[j].status.Pending?
                then old(rows)[j].(status := Cancelled, finished := true) else old(rows)[j]
    {
      rows := map j | j in rows ::
        if rows[j].status.AwaitingDecision? || rows[j].status.Pending?
        then rows[j].(status := Cancelled, finished := true) else rows[j];
    }

    /** The jobs not over yet, oldest first. */
    method Active() returns (ids: seq<JobId>)
      requires Valid()
      ensures forall i, k :: 0 <= i < k < |ids| ==> ids[i] < ids[k]
      ensures forall j :: j in ids <==> j in rows && !rows[j].status.Terminal()
    {
      ids := [];
      var j := 0;
      while j < nextId
        invariant j <= nextId
        invariant forall i :: 0 <= i < |ids| ==> ids[i] < j
        invariant forall i, k :: 0 <= i < k < |ids| ==> ids[i] < ids[k]
        invariant forall x :: x in ids <==> x in rows && !rows[x].status.Terminal() && x < j
      {
        if j in rows && !rows[j].status.Terminal() {
          ids := ids + [j];
        }
        j := j + 1;
      }
    }
  }

  const INTERRUPTED := "interrompido por reinício do serviço"

  /** Boot: interrupted jobs are settled, then orphan tmp files are swept off the destination.
      Finalized files survive it; if removals work, no tmp file does. */
  method Recover(repo: JobRepo, d: Destination, mounted: bool, smooth: bool) returns (ok: bool)
    requires repo.Valid() && d.Valid() && d.st.copies == map[]
    modifies repo, d
    ensures repo.Valid() && d.Valid()
    ensures repo.rows.Keys == old(repo.rows).Keys && (smooth ==> ok)
    ensures forall j :: j in repo.rows ==>
              Settles(old(repo.rows)[j], repo.rows[j], INTERRUPTED) || (!ok && repo.rows[j] == old(repo.rows)[j])
    ensures Extends(old(d.st), d.st) && d.st.rows == old(d.st.rows)
    ensures forall p :: p in d.st.files ==> p in old(d.st.files)
    ensures ok && mounted && d.removes ==> forall p :: p in d.st.files ==> !IsTmp(p)
  {
    var n;
    ok, n := repo.FailInterrupted(INTERRUPTED, smooth);
    if ok && mounted {
      var kept: set<Path> := *;
      d.Do(Sweep(if d.removes then {} else kept));
    }
  }
}
