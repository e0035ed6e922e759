/** Every move of the job manager keeps the invariant: what the maps and goroutines hold (`…Filed`),
    what the loop and Cancel hold (`…Driven`), and each job's row and events (`…Job`). */
module ManagerSteps {
  import opened Text
  import opened Jobs
  import opened ManagerTables
  import opened JobEvents
  import opened ManagerProtocol

  predicate At(s: State, j: JobId, p: Place) {
    j in s.at && s.at[j] == p
  }

  /** The loop holds the job, and the job is placed with it. */
  predicate AtLoop(s: State, j: JobId) {
    s.loop.Holds(j) && j in s.at && s.at[j].WithLoop?
  }

  predicate AtQuestion(s: State, x: Serial) {
    x in s.t.awaiting && s.t.awaiting[x].serial == x && At(s, s.t.awaiting[x].job, Awaits(x))
  }

  predicate AtBlocked(s: State, j: JobId) {
    j in s.t.blocked && s.t.blocked[j].job == j && j in s.at && s.at[j].Blocks?
  }

  predicate AtRun(s: State, g: GoId) {
    g in s.gos && s.gos[g].HoldsJob() && At(s, s.gos[g].q.job, Runs(g))
  }

  predicate GoodJob(s: State, i: JobId) {
    i in s.at && i in s.rows && i in s.told && JobOk(s, i)
  }

  /** Nowhere the maps and goroutines would know of. */
  predicate Unfiled(p: Place) {
    !p.Awaits? && !p.Blocks? && !p.Runs?
  }

  /** From `s` to `t` only the maps changed, and job `j` moved to `p`. */
  predicate Moved(s: State, t: State, j: JobId, p: Place) {
    && j in s.at && Unfiled(p) && t.at == s.at[j := p]
    && t.gos == s.gos && t.rows.Keys == s.rows.Keys && t.told == s.told
    && t.nextJob == s.nextJob && t.nextGo == s.nextGo
    && (forall i :: i in t.finishing ==> i in s.finishing || i == j)
  }

  lemma MovedIds(s: State, t: State, j: JobId, p: Place)
    requires IdsOk(s) && Moved(s, t, j, p)
    ensures IdsOk(t)
  {
  }

  lemma MovedGos(s: State, t: State, j: JobId, p: Place)
    requires GosOk(s) && Moved(s, t, j, p) && !s.at[j].Runs?
    ensures GosOk(t)
  {
  }

  lemma MovedQuestions(s: State, t: State, j: JobId, p: Place)
    requires AwaitingOk(s) && Moved(s, t, j, p) && (s.at[j].Awaits? ==> s.at[j].serial in s.t.awaiting)
    requires t.t.awaiting == if s.at[j].Awaits? then s.t.awaiting - {s.at[j].serial} else s.t.awaiting
    ensures AwaitingOk(t)
  {
  }

  lemma MovedBlocked(s: State, t: State, j: JobId, p: Place)
    requires BlockedOk(s) && Moved(s, t, j, p)
    requires t.t.blocked == if s.at[j].Blocks? then s.t.blocked - {j} else s.t.blocked
    ensures BlockedOk(t)
  {
  }

  /** A job leaves the map it is in, if any, and goes where no map has it. */
  lemma MovedFiled(s: State, t: State, j: JobId, p: Place)
    requires Filed(s) && Moved(s, t, j, p) && !s.at[j].Runs?
    requires t.t.awaiting == if s.at[j].Awaits? then s.t.awaiting - {s.at[j].serial} else s.t.awaiting
    requires t.t.blocked == if s.at[j].Blocks? then s.t.blocked - {j} else s.t.blocked
    ensures Filed(t)
  {
    MovedIds(s, t, j, p);
    MovedGos(s, t, j, p);
    MovedQuestions(s, t, j, p);
    MovedBlocked(s, t, j, p);
  }

  // ---- a job is created -------------------------------------------------------------------

  lemma CreateFiledMaps(s: State, guid: Guid, serial: Serial, ask: bool)
    requires IdsOk(s) && AwaitingOk(s) && s.loop.Attaching?
    ensures var t := DoCreate(s, guid, serial, ask); IdsOk(t) && AwaitingOk(t)
  {
  }

  lemma CreateFiledGos(s: State, guid: Guid, serial: Serial, ask: bool)
    requires IdsOk(s) && BlockedOk(s) && GosOk(s) && s.loop.Attaching?
    ensures var t := DoCreate(s, guid, serial, ask); BlockedOk(t) && GosOk(t)
  {
  }

  lemma CreateFiled(s: State, guid: Guid, serial: Serial, ask: bool)
    requires Filed(s) && s.loop.Attaching?
    ensures var t := DoCreate(s, guid, serial, ask); Filed(t)
  {
    CreateFiledMaps(s, guid, serial, ask);
    CreateFiledGos(s, guid, serial, ask);
  }

  lemma CreateDriven(s: State, guid: Guid, serial: Serial, ask: bool)
    requires IdsOk(s) && Driven(s) && s.loop.Attaching?
    ensures var t := DoCreate(s, guid, serial, ask); Driven(t)
  {
  }

  lemma CreateOldJob(s: State, guid: Guid, serial: Serial, ask: bool, i: JobId)
    requires LoopOk(s) && s.loop.Attaching? && GoodJob(s, i) && i != s.nextJob
    ensures var t := DoCreate(s, guid, serial, ask); i in t.at && i in t.rows && i in t.told && JobOk(t, i)
  {
  }

  lemma CreateNewJob(s: State, guid: Guid, serial: Serial, ask: bool)
    requires IdsOk(s) && RevivedOk(s) && PastOk(s)
    ensures var t, i := DoCreate(s, guid, serial, ask), s.nextJob;
      i in t.at && i in t.rows && i in t.told && JobOk(t, i)
  {
  }

  lemma CreateJob(s: State, guid: Guid, serial: Serial, ask: bool, i: JobId)
    requires IdsOk(s) && LoopOk(s) && RevivedOk(s) && JobsOk(s) && PastOk(s) && s.loop.Attaching?
    requires i in DoCreate(s, guid, serial, ask).at
    ensures var t := DoCreate(s, guid, serial, ask); i in t.at && i in t.rows && i in t.told && JobOk(t, i)
  {
    if i == s.nextJob {
      CreateNewJob(s, guid, serial, ask);
    } else {
      assert GoodJob(s, i);
      CreateOldJob(s, guid, serial, ask, i);
    }
  }

  lemma CreateKeeps(s: State, guid: Guid, serial: Serial, ask: bool)
    requires Places(s) && JobsOk(s) && PastOk(s) && s.loop.Attaching?
    ensures var t := DoCreate(s, guid, serial, ask); Places(t) && JobsOk(t)
  {
    var t := DoCreate(s, guid, serial, ask);
    CreateFiled(s, guid, serial, ask);
    CreateDriven(s, guid, serial, ask);
    forall i | i in t.at ensures GoodJob(t, i) { CreateJob(s, guid, serial, ask, i); }
  }

  // ---- questions --------------------------------------------------------------------------

  lemma DisplaceDrivenLoop(s: State, x: Serial)
    requires IdsOk(s) && Driven(s) && AtQuestion(s, x)
    ensures var t := Displace(s, x, s.t.awaiting[x]); LoopOk(t) && TodoOk(t)
  {
  }

  lemma DisplaceDrivenRest(s: State, x: Serial)
    requires IdsOk(s) && Driven(s) && AtQuestion(s, x)
    ensures var t := Displace(s, x, s.t.awaiting[x]); FinishingOk(t) && RevivedOk(t) && ByGUIDOk(t)
  {
  }

  lemma DisplaceDriven(s: State, x: Serial)
    requires IdsOk(s) && Driven(s) && AtQuestion(s, x)
    ensures var t := Displace(s, x, s.t.awaiting[x]); Driven(t)
  {
    DisplaceDrivenLoop(s, x);
    DisplaceDrivenRest(s, x);
  }

  lemma DisplaceJob(s: State, x: Serial, i: JobId)
    requires LoopOk(s) && FinishingOk(s) && GoodJob(s, i) && RevivedOk(s) && AtQuestion(s, x)
    ensures var t := Displace(s, x, s.t.awaiting[x]); i in t.at && i in t.rows && i in t.told && JobOk(t, i)
  {
  }

  lemma FileFiled(s: State, q: QueuedJob)
    requires IdsOk(s) && AwaitingOk(s) && q.serial !in s.t.awaiting && AtLoop(s, q.job)
    ensures var t := FileFree(s, q); IdsOk(t) && AwaitingOk(t)
  {
  }

  lemma FileFrame(s: State, q: QueuedJob)
    requires BlockedOk(s) && GosOk(s) && AtLoop(s, q.job)
    ensures var t := FileFree(s, q); BlockedOk(t) && GosOk(t)
  {
  }

  lemma FileDriven(s: State, q: QueuedJob)
    requires IdsOk(s) && Driven(s) && s.loop == Asking(q) && AtLoop(s, q.job)
    ensures var t := FileFree(s, q); Driven(t)
  {
  }

  lemma FileJob(s: State, q: QueuedJob, i: JobId)
    requires LoopOk(s) && FinishingOk(s) && GoodJob(s, i) && RevivedOk(s) && s.loop == Asking(q) && AtLoop(s, q.job)
    ensures var t := FileFree(s, q); i in t.at && i in t.rows && i in t.told && JobOk(t, i)
  {
  }

  lemma DisplaceFiled(s: State, x: Serial)
    requires Filed(s) && AtQuestion(s, x)
    ensures var t := Displace(s, x, s.t.awaiting[x]); Filed(t)
  {
    MovedFiled(s, Displace(s, x, s.t.awaiting[x]), s.t.awaiting[x].job, Gone);
  }

  lemma DisplaceKeeps(s: State, x: Serial)
    requires Places(s) && JobsOk(s) && x in s.t.awaiting
    ensures var t := Displace(s, x, s.t.awaiting[x]); Places(t) && JobsOk(t)
  {
    var t := Displace(s, x, s.t.awaiting[x]);
    DisplaceFiled(s, x);
    DisplaceDriven(s, x);
    forall i | i in t.at ensures GoodJob(t, i) { DisplaceJob(s, x, i); }
  }

  lemma FileKeeps(s: State, q: QueuedJob)
    requires Places(s) && JobsOk(s) && s.loop == Asking(q) && q.serial !in s.t.awaiting
    ensures var t := FileFree(s, q); Places(t) && JobsOk(t)
  {
    assert s.loop.Holds(q.job);
    var t := FileFree(s, q);
    FileFiled(s, q);
    FileFrame(s, q);
    FileDriven(s, q);
    forall i | i in t.at ensures GoodJob(t, i) { FileJob(s, q, i); }
  }

  lemma FileQuestionKeeps(s: State, q: QueuedJob)
    requires Places(s) && JobsOk(s) && s.loop == Asking(q)
    ensures var t := DoFileQuestion(s, q); Places(t) && JobsOk(t)
  {
    if q.serial in s.t.awaiting {
      DisplaceKeeps(s, q.serial);
      FileKeeps(Displace(s, q.serial, s.t.awaiting[q.serial]), q);
    } else {
      FileKeeps(s, q);
    }
  }

  lemma DecideDriven(s: State, x: Serial)
    requires IdsOk(s) && Driven(s) && s.loop.Idle? && AtQuestion(s, x)
    ensures var t := DoDecideCopy(s, x, s.t.awaiting[x]); Driven(t)
  {
  }

  lemma DecideJob(s: State, x: Serial, i: JobId)
    requires LoopOk(s) && FinishingOk(s) && GoodJob(s, i) && AtQuestion(s, x) && s.loop.Idle?
    ensures var t := DoDecideCopy(s, x, s.t.awaiting[x]); i in t.at && i in t.rows && i in t.told && JobOk(t, i)
  {
  }

  lemma DecideFiled(s: State, x: Serial)
    requires Filed(s) && AtQuestion(s, x)
    ensures var t := DoDecideCopy(s, x, s.t.awaiting[x]); Filed(t)
  {
    MovedFiled(s, DoDecideCopy(s, x, s.t.awaiting[x]), s.t.awaiting[x].job, WithLoop);
  }

  lemma DecideCopyKeeps(s: State, x: Serial)
    requires Places(s) && JobsOk(s) && s.loop.Idle? && x in s.t.awaiting
    ensures var t := DoDecideCopy(s, x, s.t.awaiting[x]); Places(t) && JobsOk(t)
  {
    var t := DoDecideCopy(s, x, s.t.awaiting[x]);
    DecideFiled(s, x);
    DecideDriven(s, x);
    forall i | i in t.at ensures GoodJob(t, i) { DecideJob(s, x, i); }
  }

  lemma DecideWriteFiled(s: State, q: QueuedJob)
    requires Filed(s) && q.job in s.at
    ensures Filed(DoDecideWrite(s, q))
  {
  }

  lemma DecideWriteDriven(s: State, q: QueuedJob)
    requires Driven(s) && s.loop == Deciding(q) && AtLoop(s, q.job)
    ensures Driven(DoDecideWrite(s, q))
  {
  }

  lemma DecideWriteJob(s: State, q: QueuedJob, i: JobId)
    requires LoopOk(s) && FinishingOk(s) && GoodJob(s, i) && s.loop == Deciding(q) && AtLoop(s, q.job)
    ensures var t := DoDecideWrite(s, q); i in t.at && i in t.rows && i in t.told && JobOk(t, i)
  {
  }

  lemma DecideWriteKeeps(s: State, q: QueuedJob)
    requires Places(s) && JobsOk(s) && s.loop == Deciding(q)
    ensures var t := DoDecideWrite(s, q); Places(t) && JobsOk(t)
  {
    var t := DoDecideWrite(s, q);
    assert s.loop.Holds(q.job);
    DecideWriteFiled(s, q);
    DecideWriteDriven(s, q);
    forall i | i in t.at ensures GoodJob(t, i) { DecideWriteJob(s, q, i); }
  }

  // ---- the loop takes a job out to settle it ----------------------------------------------

  /** The loop may note another question to settle. */
  predicate CanNote(s: State) {
    s.loop.Idle? || (s.loop.Closing? && s.loop.next.None?)
  }

  lemma TakeAwaitingDriven(s: State, x: Serial)
    requires IdsOk(s) && Driven(s) && CanNote(s) && AtQuestion(s, x)
    ensures var t := LoopTakesAwaiting(s, x, s.t.awaiting[x]); Driven(t)
  {
  }

  lemma TakeAwaitingJob(s: State, x: Serial, i: JobId)
    requires LoopOk(s) && FinishingOk(s) && GoodJob(s, i) && AtQuestion(s, x) && CanNote(s)
    ensures var t := LoopTakesAwaiting(s, x, s.t.awaiting[x]); i in t.at && i in t.rows && i in t.told && JobOk(t, i)
  {
  }

  lemma TakeAwaitingFiled(s: State, x: Serial)
    requires Filed(s) && AtQuestion(s, x)
    ensures var t := LoopTakesAwaiting(s, x, s.t.awaiting[x]); Filed(t)
  {
    MovedFiled(s, LoopTakesAwaiting(s, x, s.t.awaiting[x]), s.t.awaiting[x].job, WithLoop);
  }

  lemma TakeAwaitingKeeps(s: State, x: Serial)
    requires Places(s) && JobsOk(s) && CanNote(s) && x in s.t.awaiting
    ensures var t := LoopTakesAwaiting(s, x, s.t.awaiting[x]); Places(t) && JobsOk(t)
  {
    var t := LoopTakesAwaiting(s, x, s.t.awaiting[x]);
    TakeAwaitingFiled(s, x);
    TakeAwaitingDriven(s, x);
    forall i | i in t.at ensures GoodJob(t, i) { TakeAwaitingJob(s, x, i); }
  }

  lemma TakeBlockedDriven(s: State, j: JobId)
    requires IdsOk(s) && Driven(s) && s.loop.Idle? && AtBlocked(s, j)
    ensures var t := LoopTakesBlocked(s, j); Driven(t)
  {
  }

  lemma TakeBlockedJob(s: State, j: JobId, i: JobId)
    requires LoopOk(s) && FinishingOk(s) && GoodJob(s, i) && AtBlocked(s, j) && s.loop.Idle?
    ensures var t := LoopTakesBlocked(s, j); i in t.at && i in t.rows && i in t.told && JobOk(t, i)
  {
  }

  lemma TakeBlockedFiled(s: State, j: JobId)
    requires Filed(s) && AtBlocked(s, j)
    ensures var t := LoopTakesBlocked(s, j); Filed(t)
  {
    MovedFiled(s, LoopTakesBlocked(s, j), j, WithLoop);
  }

  lemma TakeBlockedKeeps(s: State, j: JobId)
    requires Places(s) && JobsOk(s) && s.loop.Idle? && j in s.t.blocked
    ensures Places(LoopTakesBlocked(s, j)) && JobsOk(LoopTakesBlocked(s, j))
  {
    var t := LoopTakesBlocked(s, j);
    TakeBlockedFiled(s, j);
    TakeBlockedDriven(s, j);
    forall i | i in t.at ensures GoodJob(t, i) { TakeBlockedJob(s, j, i); }
  }

  lemma SettleDriven(s: State, w: Write, next: Option<Write>)
    requires IdsOk(s) && Driven(s) && s.loop == Closing(w, next) && AtLoop(s, w.job)
    ensures var t := DoSettle(s, w, next); Driven(t)
  {
  }

  lemma SettleJob(s: State, w: Write, next: Option<Write>, i: JobId)
    requires LoopOk(s) && FinishingOk(s) && GoodJob(s, i) && s.loop == Closing(w, next) && AtLoop(s, w.job)
    ensures var t := DoSettle(s, w, next); i in t.at && i in t.rows && i in t.told && JobOk(t, i)
  {
  }

  lemma SettleFiled(s: State, w: Write, next: Option<Write>)
    requires Filed(s) && AtLoop(s, w.job)
    ensures var t := DoSettle(s, w, next); Filed(t)
  {
    MovedFiled(s, DoSettle(s, w, next), w.job, Gone);
  }

  lemma SettleKeeps(s: State, w: Write, next: Option<Write>)
    requires Places(s) && JobsOk(s) && s.loop == Closing(w, next)
    ensures var t := DoSettle(s, w, next); Places(t) && JobsOk(t)
  {
    var t := DoSettle(s, w, next);
    assert s.loop.Holds(w.job);
    SettleFiled(s, w, next);
    SettleDriven(s, w, next);
    forall i | i in t.at ensures GoodJob(t, i) { SettleJob(s, w, next, i); }
  }

  // ---- admission and retry ----------------------------------------------------------------

  lemma AdmitFiledMaps(s: State, q: QueuedJob, rest: seq<QueuedJob>)
    requires IdsOk(s) && AwaitingOk(s) && AtLoop(s, q.job)
    ensures var t := DoAdmit(s, q, rest); IdsOk(t) && AwaitingOk(t)
  {
  }

  lemma AdmitFiledGos(s: State, q: QueuedJob, rest: seq<QueuedJob>)
    requires IdsOk(s) && BlockedOk(s) && GosOk(s) && AtLoop(s, q.job)
    ensures var t := DoAdmit(s, q, rest); BlockedOk(t) && GosOk(t)
  {
  }

  lemma AdmitFiled(s: State, q: QueuedJob, rest: seq<QueuedJob>)
    requires Filed(s) && s.loop == Admitting(q, rest) && AtLoop(s, q.job)
    ensures var t := DoAdmit(s, q, rest); Filed(t)
  {
    AdmitFiledMaps(s, q, rest);
    AdmitFiledGos(s, q, rest);
  }

  lemma AdmitDriven(s: State, q: QueuedJob, rest: seq<QueuedJob>)
    requires IdsOk(s) && Driven(s) && s.loop == Admitting(q, rest) && AtLoop(s, q.job)
    ensures var t := DoAdmit(s, q, rest); Driven(t)
  {
    assert s.loop.Todo() == rest;
  }

  lemma AdmitJob(s: State, q: QueuedJob, rest: seq<QueuedJob>, i: JobId)
    requires LoopOk(s) && FinishingOk(s) && GoodJob(s, i) && IdsOk(s) && GosOk(s)
    requires s.loop == Admitting(q, rest) && AtLoop(s, q.job)
    ensures var t := DoAdmit(s, q, rest); i in t.at && i in t.rows && i in t.told && JobOk(t, i)
  {
  }

  lemma AdmitKeeps(s: State, q: QueuedJob, rest: seq<QueuedJob>)
    requires Places(s) && JobsOk(s) && s.loop == Admitting(q, rest)
    ensures var t := DoAdmit(s, q, rest); Places(t) && JobsOk(t)
  {
    var t := DoAdmit(s, q, rest);
    assert s.loop.Holds(q.job);
    AdmitFiled(s, q, rest);
    AdmitDriven(s, q, rest);
    forall i | i in t.at ensures GoodJob(t, i) { AdmitJob(s, q, rest, i); }
  }

  lemma ProbeFailsFiled(s: State)
    requires Filed(s) && s.loop.Probing?
    ensures var t := DoProbeFails(s); Filed(t)
  {
  }

  lemma ProbeFailsDriven(s: State)
    requires IdsOk(s) && Driven(s) && s.loop.Probing?
    ensures var t := DoProbeFails(s); Driven(t)
  {
  }

  lemma ProbeFailsJob(s: State, i: JobId)
    requires LoopOk(s) && FinishingOk(s) && GoodJob(s, i) && s.loop.Probing?
    ensures var t := DoProbeFails(s); i in t.at && i in t.rows && i in t.told && JobOk(t, i)
  {
  }

  lemma ProbeFailsKeeps(s: State)
    requires Places(s) && JobsOk(s) && s.loop.Probing?
    ensures var t := DoProbeFails(s); Places(t) && JobsOk(t)
  {
    var t := DoProbeFails(s);
    ProbeFailsFiled(s);
    ProbeFailsDriven(s);
    forall i | i in t.at ensures GoodJob(t, i) { ProbeFailsJob(s, i); }
  }

  lemma RetryDriven(s: State)
    requires IdsOk(s) && BlockedOk(s) && Driven(s)
    requires s.loop.Retrying? && s.loop.todo != [] && StillListed(s, s.loop.todo[0])
    ensures var t := DoRetryNext(s, s.loop.todo[0], s.loop.todo[1..]);
      LoopOk(t) && FinishingOk(t) && RevivedOk(t) && ByGUIDOk(t)
  {
  }

  lemma RetryTodo(s: State)
    requires LoopOk(s) && TodoOk(s) && s.loop.Retrying? && s.loop.todo != []
    ensures var t := DoRetryNext(s, s.loop.todo[0], s.loop.todo[1..]); TodoOk(t)
  {
    assert s.loop.Todo() == s.loop.todo;
  }

  lemma RetryJob(s: State, i: JobId)
    requires LoopOk(s) && FinishingOk(s) && GoodJob(s, i) && BlockedOk(s)
    requires s.loop.Retrying? && s.loop.todo != [] && StillListed(s, s.loop.todo[0])
    ensures var t := DoRetryNext(s, s.loop.todo[0], s.loop.todo[1..]);
      i in t.at && i in t.rows && i in t.told && JobOk(t, i)
  {
  }

  lemma RetryFiled(s: State, q: QueuedJob, rest: seq<QueuedJob>)
    requires Filed(s) && StillListed(s, q)
    ensures var t := DoRetryNext(s, q, rest); Filed(t)
  {
    MovedFiled(s, DoRetryNext(s, q, rest), q.job, WithLoop);
  }

  lemma RetryKeeps(s: State)
    requires Places(s) && JobsOk(s) && s.loop.Retrying? && s.loop.todo != []
    ensures var t := DoRetryNext(s, s.loop.todo[0], s.loop.todo[1..]); Places(t) && JobsOk(t)
  {
    var t := DoRetryNext(s, s.loop.todo[0], s.loop.todo[1..]);
    assert s.loop.Todo() == s.loop.todo;
    assert StillListed(s, s.loop.todo[0]);
    RetryFiled(s, s.loop.todo[0], s.loop.todo[1..]);
    RetryDriven(s);
    RetryTodo(s);
    forall i | i in t.at ensures GoodJob(t, i) { RetryJob(s, i); }
  }

  /** The loop moves, holding no job before or after. */
  predicate FreeMove(s: State, loop: Loop) {
    && (loop.Idle? || loop.Attaching? || loop.Probing? || loop.Retrying?)
    && (s.loop.Idle? || s.loop.Attaching? || s.loop.Probing? || s.loop.Retrying?)
    && (s.loop.Todo() == loop.Todo() || (s.loop.Idle? && Lists(loop.Todo(), s.t.blocked)))
  }

  lemma FreeMoveTodo(s: State, loop: Loop)
    requires BlockedOk(s) && TodoOk(s) && FreeMove(s, loop)
    ensures TodoOk(s.(loop := loop))
  {
  }

  lemma FreeMoveJob(s: State, loop: Loop, i: JobId)
    requires LoopOk(s) && FreeMove(s, loop) && GoodJob(s, i)
    ensures var t := s.(loop := loop); i in t.at && i in t.rows && i in t.told && JobOk(t, i)
  {
  }

  lemma LoopOnlyKeeps(s: State, loop: Loop)
    requires Places(s) && JobsOk(s) && FreeMove(s, loop)
    ensures var t := s.(loop := loop); Places(t) && JobsOk(t)
  {
    var t := s.(loop := loop);
    FreeMoveTodo(s, loop);
    forall i | i in t.at ensures GoodJob(t, i) {
      FreeMoveJob(s, loop, i);
    }
  }

  // ---- Cancel -----------------------------------------------------------------------------

  lemma CancelBlockedDriven(s: State, j: JobId)
    requires IdsOk(s) && Driven(s) && AtBlocked(s, j)
    ensures var t := CancelBlocked(s, j); Driven(t)
  {
  }

  lemma CancelBlockedJob(s: State, j: JobId, i: JobId)
    requires LoopOk(s) && FinishingOk(s) && GoodJob(s, i) && AtBlocked(s, j)
    ensures var t := CancelBlocked(s, j); i in t.at && i in t.rows && i in t.told && JobOk(t, i)
  {
  }

  lemma CancelAwaitingDrivenLoop(s: State, x: Serial)
    requires IdsOk(s) && Driven(s) && AtQuestion(s, x)
    ensures var t := CancelAwaiting(s, s.t.awaiting[x].job, x); LoopOk(t) && TodoOk(t)
  {
  }

  lemma CancelAwaitingDrivenRest(s: State, x: Serial)
    requires IdsOk(s) && Driven(s) && AtQuestion(s, x)
    ensures var t := CancelAwaiting(s, s.t.awaiting[x].job, x); FinishingOk(t) && RevivedOk(t) && ByGUIDOk(t)
  {
  }

  lemma CancelAwaitingDriven(s: State, x: Serial)
    requires IdsOk(s) && Driven(s) && AtQuestion(s, x)
    ensures var t := CancelAwaiting(s, s.t.awaiting[x].job, x); Driven(t)
  {
    CancelAwaitingDrivenLoop(s, x);
    CancelAwaitingDrivenRest(s, x);
  }

  lemma CancelAwaitingJob(s: State, x: Serial, i: JobId)
    requires LoopOk(s) && FinishingOk(s) && GoodJob(s, i) && AtQuestion(s, x)
    ensures var t := CancelAwaiting(s, s.t.awaiting[x].job, x); i in t.at && i in t.rows && i in t.told && JobOk(t, i)
  {
  }

  lemma CancelWriteDrivenLoop(s: State, j: JobId)
    requires IdsOk(s) && Driven(s) && j in s.finishing && j in s.at
    ensures var t := DoCancelWrite(s, j); LoopOk(t) && TodoOk(t)
  {
  }

  lemma CancelWriteDrivenRest(s: State, j: JobId)
    requires IdsOk(s) && Driven(s) && j in s.finishing && j in s.at
    ensures var t := DoCancelWrite(s, j); FinishingOk(t) && RevivedOk(t) && ByGUIDOk(t)
  {
  }

  lemma CancelWriteDriven(s: State, j: JobId)
    requires IdsOk(s) && Driven(s) && j in s.finishing && j in s.at
    ensures var t := DoCancelWrite(s, j); Driven(t)
  {
    CancelWriteDrivenLoop(s, j);
    CancelWriteDrivenRest(s, j);
  }

  lemma CancelWriteJob(s: State, j: JobId, i: JobId)
    requires LoopOk(s) && FinishingOk(s) && GoodJob(s, i) && j in s.finishing
    ensures var t := DoCancelWrite(s, j); i in t.at && i in t.rows && i in t.told && JobOk(t, i)
  {
  }

  lemma UnmovedFiled(s: State, t: State)
    requires Filed(s) && t.t == s.t && t.at == s.at && t.gos == s.gos && t.told == s.told
    requires t.rows.Keys == s.rows.Keys && t.nextJob == s.nextJob && t.nextGo == s.nextGo
    requires forall i :: i in t.finishing ==> i in s.finishing
    ensures Filed(t)
  {
  }

  lemma CancelWriteFiled(s: State, j: JobId)
    requires Filed(s) && j in s.finishing
    ensures var t := DoCancelWrite(s, j); Filed(t)
  {
    if s.at[j].WithCancel? {
      MovedFiled(s, DoCancelWrite(s, j), j, Gone);
    } else {
      UnmovedFiled(s, DoCancelWrite(s, j));
    }
  }

  lemma CancelWriteKeeps(s: State, j: JobId)
    requires Places(s) && JobsOk(s) && j in s.finishing
    ensures var t := DoCancelWrite(s, j); Places(t) && JobsOk(t)
  {
    var t := DoCancelWrite(s, j);
    CancelWriteFiled(s, j);
    CancelWriteDriven(s, j);
    forall i | i in t.at ensures GoodJob(t, i) { CancelWriteJob(s, j, i); }
  }

  lemma CancelBlockedFiled(s: State, j: JobId)
    requires Filed(s) && AtBlocked(s, j)
    ensures var t := CancelBlocked(s, j); Filed(t)
  {
    MovedFiled(s, CancelBlocked(s, j), j, CancelBlocked(s, j).at[j]);
  }

  lemma CancelBlockedKeeps(s: State, j: JobId)
    requires Places(s) && JobsOk(s) && j in s.t.blocked
    ensures var t := CancelBlocked(s, j); Places(t) && JobsOk(t)
  {
    var t := CancelBlocked(s, j);
    CancelBlockedFiled(s, j);
    CancelBlockedDriven(s, j);
    forall i | i in t.at ensures GoodJob(t, i) { CancelBlockedJob(s, j, i); }
  }

  lemma CancelAwaitingFiled(s: State, x: Serial)
    requires Filed(s) && AtQuestion(s, x)
    ensures var t := CancelAwaiting(s, s.t.awaiting[x].job, x); Filed(t)
  {
    MovedFiled(s, CancelAwaiting(s, s.t.awaiting[x].job, x), s.t.awaiting[x].job, WithCancel);
  }

  lemma CancelAwaitingKeeps(s: State, x: Serial)
    requires Places(s) && JobsOk(s) && x in s.t.awaiting
    ensures var t := CancelAwaiting(s, s.t.awaiting[x].job, x); Places(t) && JobsOk(t)
  {
    var t := CancelAwaiting(s, s.t.awaiting[x].job, x);
    CancelAwaitingFiled(s, x);
    CancelAwaitingDriven(s, x);
    forall i | i in t.at ensures GoodJob(t, i) { CancelAwaitingJob(s, x, i); }
  }

  lemma CancelKeeps(s: State, j: JobId, f: Found)
    requires Places(s) && JobsOk(s) && IsFound(s.t, j, f)
    ensures var t := DoCancel(s, j, f); Places(t) && JobsOk(t)
  {
    match f
    case AsRunning(g) => FireKeeps(s, g, UserCancelled);
    case AsBlocked => CancelBlockedKeeps(s, j);
    case AsAwaiting(x) => CancelAwaitingKeeps(s, x);
    case NotActive =>
  }

  // ---- goroutines -------------------------------------------------------------------------

  /** Only goroutines change, and none takes on or lets go of a job. */
  predicate SameWork(s: State, t: State) {
    && t.at == s.at && t.t.awaiting == s.t.awaiting && t.t.blocked == s.t.blocked
    && t.finishing == s.finishing && t.revived == s.revived && t.loop == s.loop
    && t.nextJob == s.nextJob && t.nextGo == s.nextGo
    && t.rows.Keys == s.rows.Keys && s.told.Keys <= t.told.Keys
    && (forall g :: g in t.gos ==> g in s.gos && t.gos[g].q == s.gos[g].q && t.gos[g].HoldsJob() == s.gos[g].HoldsJob())
    && (forall g :: g in s.gos && g !in t.gos ==> !s.gos[g].HoldsJob())
  }

  lemma SameWorkKeeps(s: State, t: State)
    requires Places(s) && SameWork(s, t) && ByGUIDOk(t)
    ensures Places(t)
  {
  }

  predicate NotBegun(stage: Stage) {
    stage.Queueing? || stage.Admitted? || stage.Planning?
  }

  /** Moreover nothing is written or published. */
  predicate Quiet(s: State, t: State) {
    && SameWork(s, t) && t.rows == s.rows && t.told == s.told
    && t.displaced == s.displaced && t.abandoned == s.abandoned && t.bad == s.bad
    && (forall g :: g in t.gos && t.gos[g].HoldsJob() ==>
          t.gos[g].stage == s.gos[g].stage || (NotBegun(t.gos[g].stage) && NotBegun(s.gos[g].stage)))
  }

  /** Nothing of job `i`'s changed, except how far its goroutine is from beginning. */
  predicate SameJob(s: State, t: State, i: JobId) {
    && i in t.rows && i in t.told && i in t.at && i in s.rows && i in s.told && i in s.at
    && t.rows[i] == s.rows[i] && t.told[i] == s.told[i] && t.at[i] == s.at[i] && t.loop == s.loop
    && t.finishing[i] == s.finishing[i] && (i in t.revived <==> i in s.revived) && (i in t.bad <==> i in s.bad)
    && (i in t.displaced <==> i in s.displaced) && (i in t.abandoned <==> i in s.abandoned)
    && (s.at[i].Runs? ==>
          var g := s.at[i].go;
          && g in s.gos && g in t.gos
          && (t.gos[g].stage == s.gos[g].stage || (NotBegun(t.gos[g].stage) && NotBegun(s.gos[g].stage))))
  }

  lemma JobFrame(s: State, t: State, i: JobId)
    requires SameJob(s, t, i) && JobOk(s, i)
    ensures JobOk(t, i)
  {
  }

  lemma QuietKeeps(s: State, t: State)
    requires Places(s) && JobsOk(s) && Quiet(s, t) && ByGUIDOk(t)
    ensures Places(t) && JobsOk(t)
  {
    SameWorkKeeps(s, t);
    forall i | i in t.at ensures GoodJob(t, i) {
      assert GoodJob(s, i);
      JobFrame(s, t, i);
    }
  }

  lemma FireQuiet(s: State, g: GoId, cause: Cause)
    requires ByGUIDOk(s)
    ensures var t := s.(gos := Fire(s.gos, g, cause)); Quiet(s, t) && ByGUIDOk(t)
  {
  }

  lemma FireKeeps(s: State, g: GoId, cause: Cause)
    requires Places(s) && JobsOk(s)
    ensures var t := s.(gos := Fire(s.gos, g, cause)); Places(t) && JobsOk(t)
  {
    FireQuiet(s, g, cause);
    QuietKeeps(s, s.(gos := Fire(s.gos, g, cause)));
  }

  lemma AcquireQuiet(s: State, g: GoId)
    requires ByGUIDOk(s) && InStage(s, g, Queueing)
    ensures var t := SetStage(s, g, Admitted); Quiet(s, t) && ByGUIDOk(t)
  {
  }

  lemma AcquireKeeps(s: State, g: GoId)
    requires Places(s) && JobsOk(s) && InStage(s, g, Queueing)
    ensures var t := SetStage(s, g, Admitted); Places(t) && JobsOk(t)
  {
    AcquireQuiet(s, g);
    QuietKeeps(s, SetStage(s, g, Admitted));
  }

  lemma RegisterQuiet(s: State, g: GoId)
    requires ByGUIDOk(s) && InStage(s, g, Admitted)
    ensures var t := DoRegister(s, g); Quiet(s, t) && ByGUIDOk(t)
  {
  }

  lemma RegisterKeeps(s: State, g: GoId)
    requires Places(s) && JobsOk(s) && InStage(s, g, Admitted)
    ensures var t := DoRegister(s, g); Places(t) && JobsOk(t)
  {
    RegisterQuiet(s, g);
    QuietKeeps(s, DoRegister(s, g));
  }

  lemma ReleaseQuiet(s: State, g: GoId)
    requires ByGUIDOk(s) && InStage(s, g, Leaving)
    ensures var t := s.(gos := s.gos - {g}); Quiet(s, t) && ByGUIDOk(t)
  {
  }

  lemma ReleaseKeeps(s: State, g: GoId)
    requires Places(s) && JobsOk(s) && InStage(s, g, Leaving)
    ensures var t := s.(gos := s.gos - {g}); Places(t) && JobsOk(t)
  {
    ReleaseQuiet(s, g);
    QuietKeeps(s, s.(gos := s.gos - {g}));
  }

  lemma GoDownQuiet(s: State)
    requires ByGUIDOk(s)
    ensures var t := DoGoDown(s); Quiet(s, t) && ByGUIDOk(t)
  {
  }

  lemma GoDownKeeps(s: State)
    requires Places(s) && JobsOk(s)
    ensures var t := DoGoDown(s); Places(t) && JobsOk(t)
  {
    GoDownQuiet(s);
    QuietKeeps(s, DoGoDown(s));
  }

  lemma DetachKeeps(s: State, guid: Guid, b: Option<JobId>, a: Option<Serial>)
    requires Places(s) && JobsOk(s) && Enabled(s, Detach(guid, b, a))
    ensures Places(DoDetach(s, guid, b, a)) && JobsOk(DoDetach(s, guid, b, a))
  {
    var s1 := if guid in s.t.byGUID then s.(gos := Fire(s.gos, s.t.byGUID[guid].go, CardRemoved)) else s;
    if guid in s.t.byGUID {
      FireKeeps(s, s.t.byGUID[guid].go, CardRemoved);
    }
    var s2 := if b.Some? then LoopTakesBlocked(s1, b.value) else s1;
    if b.Some? {
      TakeBlockedKeeps(s1, b.value);
    }
    if a.Some? {
      TakeAwaitingKeeps(s2, a.value);
    }
  }

  lemma QuitFiled(s: State, g: GoId)
    requires Filed(s) && InStage(s, g, Queueing)
    ensures var t := DoQuit(s, g); Filed(t)
  {
  }

  lemma QuitDriven(s: State, g: GoId)
    requires IdsOk(s) && Driven(s) && InStage(s, g, Queueing) && AtRun(s, g)
    ensures var t := DoQuit(s, g); Driven(t)
  {
  }

  lemma QuitJob(s: State, g: GoId, i: JobId)
    requires LoopOk(s) && FinishingOk(s) && GoodJob(s, i) && AtRun(s, g) && InStage(s, g, Queueing)
    ensures var t := DoQuit(s, g); i in t.at && i in t.rows && i in t.told && JobOk(t, i)
  {
  }

  lemma QuitKeeps(s: State, g: GoId)
    requires Places(s) && JobsOk(s) && InStage(s, g, Queueing)
    ensures var t := DoQuit(s, g); Places(t) && JobsOk(t)
  {
    var t := DoQuit(s, g);
    assert AtRun(s, g);
    QuitFiled(s, g);
    QuitDriven(s, g);
    forall i | i in t.at ensures GoodJob(t, i) { QuitJob(s, g, i); }
  }

  lemma UnregisterFiled(s: State, g: GoId)
    requires Filed(s) && g in s.gos && s.gos[g].stage.Returned?
    ensures var t := DoUnregister(s, g); Filed(t)
  {
  }

  lemma UnregisterDriven(s: State, g: GoId)
    requires IdsOk(s) && Driven(s) && AtRun(s, g) && s.gos[g].stage.Returned?
    ensures var t := DoUnregister(s, g); Driven(t)
  {
  }

  lemma UnregisterJob(s: State, g: GoId, i: JobId)
    requires LoopOk(s) && FinishingOk(s) && GoodJob(s, i) && GosOk(s)
    requires AtRun(s, g) && s.gos[g].stage.Returned?
    ensures var t := DoUnregister(s, g); i in t.at && i in t.rows && i in t.told && JobOk(t, i)
  {
  }

  lemma UnregisterKeeps(s: State, g: GoId)
    requires Places(s) && JobsOk(s) && g in s.gos && s.gos[g].stage.Returned?
    ensures var t := DoUnregister(s, g); Places(t) && JobsOk(t)
  {
    var t := DoUnregister(s, g);
    assert AtRun(s, g);
    UnregisterFiled(s, g);
    UnregisterDriven(s, g);
    forall i | i in t.at ensures GoodJob(t, i) { UnregisterJob(s, g, i); }
  }

  predicate Registered(stage: Stage) {
    stage.Planning? || stage.Ingesting? || stage.Returned?
  }

  lemma RunSameWork(s: State, g: GoId, status: Status, topic: Topic, stage: Stage)
    requires g in s.gos && Registered(s.gos[g].stage) && Registered(stage) && s.gos[g].q.job in s.rows
    ensures SameWork(s, RunStep(s, g, status, topic, stage))
  {
  }

  lemma RunByGUID(s: State, g: GoId, status: Status, topic: Topic, stage: Stage)
    requires g in s.gos && Registered(stage) && ByGUIDOk(s)
    ensures ByGUIDOk(RunStep(s, g, status, topic, stage))
  {
  }

  lemma LifeMore(ts: seq<Topic>, topic: Topic)
    ensures Life(ts + [topic]) == LifeStep(Life(ts), topic)
  {
    assert (ts + [topic])[..|ts|] == ts;
  }

  lemma RunOwnStatus(s: State, g: GoId, status: Status, topic: Topic, stage: Stage)
    requires RunMay(s, g, status, topic, stage) && AtRun(s, g) && GoodJob(s, s.gos[g].q.job)
    ensures var t, i := RunStep(s, g, status, topic, stage), s.gos[g].q.job;
      i in t.at && i in t.rows && (i !in t.revived ==> i !in t.bad && StatusFits(t, i))
  {
  }

  lemma RunOwnEnds(s: State, g: GoId, status: Status, topic: Topic, stage: Stage)
    requires RunMay(s, g, status, topic, stage) && AtRun(s, g) && GoodJob(s, s.gos[g].q.job)
    ensures var t, i := RunStep(s, g, status, topic, stage), s.gos[g].q.job;
      i in t.at && i in t.rows && (i in t.revived ==> i in t.bad || i in t.abandoned || Ends(t, i) >= 2)
  {
  }

  lemma RunOwnOwner(s: State, g: GoId, status: Status, topic: Topic, stage: Stage)
    requires RunMay(s, g, status, topic, stage) && AtRun(s, g) && GoodJob(s, s.gos[g].q.job)
    ensures var t, i := RunStep(s, g, status, topic, stage), s.gos[g].q.job;
      i in t.at && i in t.rows && OwnerFits(t, i)
  {
  }

  lemma RunMovesLife(s: State, g: GoId, status: Status, topic: Topic, stage: Stage)
    requires RunMay(s, g, status, topic, stage) && s.gos[g].q.job in s.told
    requires FitsStage(Life(s.told[s.gos[g].q.job]), s.gos[g].stage)
    ensures FitsStage(LifeStep(Life(s.told[s.gos[g].q.job]), topic), stage)
  {
  }

  lemma RunOwnLife(s: State, g: GoId, status: Status, topic: Topic, stage: Stage)
    requires RunMay(s, g, status, topic, stage) && AtRun(s, g) && GoodJob(s, s.gos[g].q.job)
    ensures var t, i := RunStep(s, g, status, topic, stage), s.gos[g].q.job;
      i in t.at && i in t.told && LifeFits(t, i)
  {
    var i := s.gos[g].q.job;
    LifeMore(s.told[i], topic);
    RunMovesLife(s, g, status, topic, stage);
    assert RunStep(s, g, status, topic, stage).told[i] == s.told[i] + [topic];
  }

  lemma RunOwnJob(s: State, g: GoId, status: Status, topic: Topic, stage: Stage)
    requires RunMay(s, g, status, topic, stage) && AtRun(s, g) && GoodJob(s, s.gos[g].q.job)
    ensures var t := RunStep(s, g, status, topic, stage);
      var i := s.gos[g].q.job;
      i in t.at && i in t.rows && i in t.told && JobOk(t, i)
  {
    RunOwnStatus(s, g, status, topic, stage);
    RunOwnEnds(s, g, status, topic, stage);
    RunOwnOwner(s, g, status, topic, stage);
    RunOwnLife(s, g, status, topic, stage);
  }

  lemma RunOtherJob(s: State, g: GoId, status: Status, topic: Topic, stage: Stage, i: JobId)
    requires g in s.gos && s.gos[g].q.job != i && i in s.at && i in s.rows && i in s.told
    requires s.at[i].Runs? ==> s.at[i].go in s.gos && s.at[i].go != g
    ensures SameJob(s, RunStep(s, g, status, topic, stage), i)
  {
  }

  lemma RunJob(s: State, g: GoId, status: Status, topic: Topic, stage: Stage, i: JobId)
    requires GosOk(s) && AtRun(s, g) && GoodJob(s, i) && GoodJob(s, s.gos[g].q.job)
    requires RunMay(s, g, status, topic, stage)
    ensures GoodJob(RunStep(s, g, status, topic, stage), i)
  {
    if i == s.gos[g].q.job {
      RunOwnJob(s, g, status, topic, stage);
    } else {
      RunOtherJob(s, g, status, topic, stage, i);
      JobFrame(s, RunStep(s, g, status, topic, stage), i);
    }
  }

  lemma RunnerKeeps(s: State, g: GoId, status: Status, topic: Topic, stage: Stage)
    requires Places(s) && JobsOk(s) && RunMay(s, g, status, topic, stage)
    ensures var t := RunStep(s, g, status, topic, stage); Places(t) && JobsOk(t)
  {
    var t := RunStep(s, g, status, topic, stage);
    assert AtRun(s, g);
    RunSameWork(s, g, status, topic, stage);
    RunByGUID(s, g, status, topic, stage);
    SameWorkKeeps(s, t);
    forall i | i in t.at ensures GoodJob(t, i) {
      assert GoodJob(s, i) && GoodJob(s, s.gos[g].q.job);
      RunJob(s, g, status, topic, stage, i);
    }
  }
}
