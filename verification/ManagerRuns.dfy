/** What holds over every run of the job manager. */
module ManagerRuns {
  import opened Text
  import opened Jobs
  import opened ManagerTables
  import opened JobEvents
  import opened ManagerProtocol
  import opened ManagerSteps

  // ---- every step keeps the invariant -----------------------------------------------------

  predicate AsksOrSettles(a: Action) {
    a.Look? || a.Ignore? || a.Create? || a.FileQuestion? || a.Detach? || a.Settle? || a.Decide? || a.DecideWrite?
  }

  predicate AdmitsOrRetries(a: Action) {
    a.Admit? || a.Probe? || a.ProbeFails? || a.ProbeWorks? || a.RetryNext? || a.RetryDone?
  }

  predicate ComesFromOutside(a: Action) {
    a.Cancel? || a.CancelWrite? || a.GoDown?
  }

  predicate IsRunners(a: Action) {
    a.Acquire? || a.Quit? || a.Register? || a.Runner? || a.Unregister? || a.Release?
  }

  lemma AsksOrSettlesKeeps(s: State, a: Action)
    requires Places(s) && JobsOk(s) && PastOk(s) && Enabled(s, a) && AsksOrSettles(a)
    ensures Places(Step(s, a)) && JobsOk(Step(s, a))
  {
    match a
    case Look(guid, serial) => LoopOnlyKeeps(s, Attaching(guid, serial));
    case Ignore => LoopOnlyKeeps(s, Idle);
    case Create(guid, serial, ask) => CreateKeeps(s, guid, serial, ask);
    case FileQuestion => FileQuestionKeeps(s, s.loop.q);
    case Detach(guid, b, x) => DetachKeeps(s, guid, b, x);
    case Settle => SettleKeeps(s, s.loop.now, s.loop.next);
    case Decide(x, copy) => if copy { DecideCopyKeeps(s, x); } else { TakeAwaitingKeeps(s, x); }
    case DecideWrite => DecideWriteKeeps(s, s.loop.q);
  }

  lemma AdmitsOrRetriesKeeps(s: State, a: Action)
    requires Places(s) && JobsOk(s) && Enabled(s, a) && AdmitsOrRetries(a)
    ensures Places(Step(s, a)) && JobsOk(Step(s, a))
  {
    match a
    case Admit => AdmitKeeps(s, s.loop.q, s.loop.rest);
    case Probe(order) => LoopOnlyKeeps(s, Probing(order));
    case ProbeFails => ProbeFailsKeeps(s);
    case ProbeWorks => LoopOnlyKeeps(s, Retrying(s.loop.todo));
    case RetryNext => RetryKeeps(s);
    case RetryDone => LoopOnlyKeeps(s, Idle);
  }

  lemma OutsideKeeps(s: State, a: Action)
    requires Places(s) && JobsOk(s) && Enabled(s, a) && ComesFromOutside(a)
    ensures Places(Step(s, a)) && JobsOk(Step(s, a))
  {
    match a
    case Cancel(j, f) => CancelKeeps(s, j, f);
    case CancelWrite(j) => CancelWriteKeeps(s, j);
    case GoDown => GoDownKeeps(s);
  }

  lemma RunnersKeep(s: State, a: Action)
    requires Places(s) && JobsOk(s) && Enabled(s, a) && IsRunners(a)
    ensures Places(Step(s, a)) && JobsOk(Step(s, a))
  {
    match a
    case Acquire(g) => AcquireKeeps(s, g);
    case Quit(g) => QuitKeeps(s, g);
    case Register(g) => RegisterKeeps(s, g);
    case Runner(g, status, topic, stage) => RunnerKeeps(s, g, status, topic, stage);
    case Unregister(g) => UnregisterKeeps(s, g);
    case Release(g) => ReleaseKeeps(s, g);
  }

  /** How rows and history move in one step. */
  ghost predicate Grows(s: State, a: Action, t: State) {
    && (forall j :: j in s.rows ==>
          j in t.rows && (t.rows[j] == s.rows[j] || CanFollow(s.rows[j], t.rows[j]) || j in t.bad))
    && s.revived <= t.revived && s.bad <= t.bad && s.displaced <= t.displaced && s.abandoned <= t.abandoned
    && (!a.RetryNext? ==> t.revived == s.revived) && (!a.FileQuestion? ==> t.displaced == s.displaced)
    && (!a.Register? && !a.Unregister? ==> t.t.byGUID == s.t.byGUID) && (!a.Create? ==> t.vol == s.vol)
    && (s.down ==> t.down) && t.maxJobs == s.maxJobs
  }

  /** Taking jobs out of the maps and cancelling contexts writes nothing. */
  predicate SameHistory(s: State, t: State) {
    && t.rows == s.rows && (forall j :: j in s.at ==> j in t.at) && t.down == s.down && t.maxJobs == s.maxJobs
    && t.revived == s.revived && t.bad == s.bad && t.displaced == s.displaced && t.abandoned == s.abandoned
    && t.t.byGUID == s.t.byGUID && t.vol == s.vol
  }

  lemma TakesWriteNothing(s: State, j: JobId, x: Serial, q: QueuedJob)
    ensures SameHistory(s, LoopTakesBlocked(s, j)) && SameHistory(s, LoopTakesAwaiting(s, x, q))
  {
  }

  lemma DetachWritesNothing(s: State, guid: Guid, b: Option<JobId>, a: Option<Serial>)
    ensures SameHistory(s, DoDetach(s, guid, b, a))
  {
    var s1 := if guid in s.t.byGUID then s.(gos := Fire(s.gos, s.t.byGUID[guid].go, CardRemoved)) else s;
    var s2 := if b.Some? then LoopTakesBlocked(s1, b.value) else s1;
    if b.Some? {
      TakesWriteNothing(s1, b.value, "", QueuedJob(0, "", ""));
    }
    if a.Some? && a.value in s2.t.awaiting {
      TakesWriteNothing(s2, 0, a.value, s2.t.awaiting[a.value]);
    }
  }

  lemma DetachGrows(s: State, guid: Guid, b: Option<JobId>, a: Option<Serial>)
    ensures var t := DoDetach(s, guid, b, a); Grows(s, Detach(guid, b, a), t) && (PastOk(s) ==> PastOk(t))
  {
    DetachWritesNothing(s, guid, b, a);
  }

  lemma CreateGrows(s: State, guid: Guid, serial: Serial, ask: bool)
    requires IdsOk(s) && PastOk(s)
    ensures var t := DoCreate(s, guid, serial, ask); Grows(s, Create(guid, serial, ask), t) && PastOk(t)
  {
  }

  lemma DisplaceGrows(s: State, x: Serial, q: QueuedJob)
    requires PastOk(s) && q.job in s.at
    ensures var t := Displace(s, x, q); Grows(s, FileQuestion, t) && PastOk(t)
  {
  }

  lemma FileGrows(s: State, q: QueuedJob)
    requires AwaitingOk(s) && PastOk(s)
    ensures var t := DoFileQuestion(s, q); Grows(s, FileQuestion, t) && PastOk(t)
  {
    if q.serial in s.t.awaiting {
      DisplaceGrows(s, q.serial, s.t.awaiting[q.serial]);
    }
  }

  lemma AsksGrows(s: State, a: Action)
    requires IdsOk(s) && AwaitingOk(s) && PastOk(s) && Enabled(s, a)
    requires a.Look? || a.Ignore? || a.Create? || a.FileQuestion?
    ensures Grows(s, a, Step(s, a)) && PastOk(Step(s, a))
  {
    match a
    case Create(guid, serial, ask) => CreateGrows(s, guid, serial, ask);
    case FileQuestion => FileGrows(s, s.loop.q);
    case _ =>
  }

  lemma DecideWritesNothing(s: State, x: Serial, q: QueuedJob)
    ensures SameHistory(s, DoDecideCopy(s, x, q)) && SameHistory(s, LoopTakesAwaiting(s, x, q))
  {
  }

  lemma DecideWriteGrows(s: State, q: QueuedJob)
    requires PastOk(s) && q.job in s.at
    ensures var t := DoDecideWrite(s, q); Grows(s, DecideWrite, t) && PastOk(t)
  {
  }

  lemma DecidesGrows(s: State, a: Action)
    requires LoopOk(s) && PastOk(s) && Enabled(s, a) && (a.Decide? || a.DecideWrite?)
    ensures Grows(s, a, Step(s, a)) && PastOk(Step(s, a))
  {
    if a.Decide? {
      DecideWritesNothing(s, a.serial, s.t.awaiting[a.serial]);
    } else {
      DecideWriteGrows(s, s.loop.q);
    }
  }

  lemma SettlesGrows(s: State, a: Action)
    requires LoopOk(s) && PastOk(s) && Enabled(s, a) && (a.Detach? || a.Settle?)
    ensures Grows(s, a, Step(s, a)) && PastOk(Step(s, a))
  {
    if a.Detach? {
      DetachGrows(s, a.guid, a.b, a.a);
    }
  }

  lemma AdmitsOrRetriesGrows(s: State, a: Action)
    requires PastOk(s) && Enabled(s, a) && AdmitsOrRetries(a)
    ensures Grows(s, a, Step(s, a)) && PastOk(Step(s, a))
  {
  }

  lemma CancelGrows(s: State, j: JobId, f: Found)
    ensures var t := DoCancel(s, j, f); Grows(s, Cancel(j, f), t) && (PastOk(s) ==> PastOk(t))
  {
  }

  lemma OutsideGrows(s: State, a: Action)
    requires IdsOk(s) && PastOk(s) && Enabled(s, a) && ComesFromOutside(a)
    ensures Grows(s, a, Step(s, a)) && PastOk(Step(s, a))
  {
    if a.Cancel? {
      CancelGrows(s, a.job, a.f);
    }
  }

  lemma RunsGrow(s: State, g: GoId, status: Status, topic: Topic, stage: Stage)
    requires IdsOk(s) && PastOk(s) && RunMay(s, g, status, topic, stage) && s.gos[g].q.job in s.at
    ensures var t := RunStep(s, g, status, topic, stage); Grows(s, Runner(g, status, topic, stage), t) && PastOk(t)
  {
  }

  lemma RunnersGrow(s: State, a: Action)
    requires IdsOk(s) && GosOk(s) && PastOk(s) && Enabled(s, a) && IsRunners(a)
    ensures Grows(s, a, Step(s, a)) && PastOk(Step(s, a))
  {
    if a.Runner? {
      RunsGrow(s, a.go, a.status, a.topic, a.stage);
    }
  }

  /** A goroutine gets past the semaphore only by acquiring it. */
  predicate SlotsKept(s: State, t: State) {
    forall g :: g in t.gos && !t.gos[g].stage.Queueing? ==> g in s.gos && !s.gos[g].stage.Queueing?
  }

  lemma FireSlots(s: State, g: GoId, cause: Cause)
    ensures SlotsKept(s, s.(gos := Fire(s.gos, g, cause)))
  {
  }

  lemma DetachSlots(s: State, guid: Guid, b: Option<JobId>, a: Option<Serial>)
    ensures SlotsKept(s, DoDetach(s, guid, b, a))
  {
    var s1 := if guid in s.t.byGUID then s.(gos := Fire(s.gos, s.t.byGUID[guid].go, CardRemoved)) else s;
    if guid in s.t.byGUID {
      FireSlots(s, s.t.byGUID[guid].go, CardRemoved);
    }
    var s2 := if b.Some? then LoopTakesBlocked(s1, b.value) else s1;
    assert s2.gos == s1.gos && DoDetach(s, guid, b, a).gos == s2.gos;
  }

  lemma AsksOrSettlesSlots(s: State, a: Action)
    requires Enabled(s, a) && AsksOrSettles(a)
    ensures SlotsKept(s, Step(s, a))
  {
    if a.Detach? {
      DetachSlots(s, a.guid, a.b, a.a);
    }
  }

  lemma AdmitsOrRetriesSlots(s: State, a: Action)
    requires Enabled(s, a) && AdmitsOrRetries(a)
    ensures SlotsKept(s, Step(s, a))
  {
  }

  lemma CancelSlots(s: State, j: JobId, f: Found)
    ensures SlotsKept(s, DoCancel(s, j, f))
  {
    if f.AsRunning? {
      FireSlots(s, f.go, UserCancelled);
    }
  }

  lemma OutsideSlots(s: State, a: Action)
    requires Enabled(s, a) && ComesFromOutside(a)
    ensures SlotsKept(s, Step(s, a))
  {
    if a.Cancel? {
      CancelSlots(s, a.job, a.f);
    }
  }

  lemma RunnersSlots(s: State, a: Action)
    requires Enabled(s, a) && IsRunners(a) && !a.Acquire?
    ensures SlotsKept(s, Step(s, a))
  {
  }
}
