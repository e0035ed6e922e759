/** How jobs end, and why: over every run of the job manager, what stopped a run, what decided about a
    job, and what the operator's answer led to. */
module ManagerVerdicts {
  import opened Text
  import opened Jobs
  import opened ManagerTables
  import opened JobEvents
  import opened ManagerProtocol
  import opened ManagerRuns
  import opened ManagerTheorems
  import opened ManagerLaws

  // ---- what stopped a run -----------------------------------------------------------------

  /** The reason, if any, that action `a` gives goroutine `g` to stop. */
  function Reaches(s: State, a: Action, g: GoId): Option<Cause> {
    if a.Admit? && g == s.nextGo then if s.down then Some(Shutdown) else None
    else if g !in s.gos then None
    else
      match a
      case Cancel(_, AsRunning(h)) => if h == g then Some(UserCancelled) else None
      case Detach(x, _, _) => if x in s.t.byGUID && s.t.byGUID[x].go == g then Some(CardRemoved) else None
      case GoDown => Some(Shutdown)
      case _ => None
  }

  /** The first reason the log gives `g` to stop. */
  function FirstCause(maxJobs: nat, log: seq<Action>, g: GoId): Option<Cause>
    requires Legal(Start(maxJobs), log)
  {
    if log == [] then None
    else
      var before := log[..|log| - 1];
      var prior := FirstCause(maxJobs, before, g);
      if prior.Some? then prior else Reaches(Run(Start(maxJobs), before), log[|log| - 1], g)
  }

  /** How a goroutine's cause, and the numbers handed out, move in one step. */
  predicate CauseMoves(s: State, a: Action, t: State, g: GoId) {
    && (g in t.gos && g in s.gos ==>
          t.gos[g].cause == if s.gos[g].cause.Some? then s.gos[g].cause else Reaches(s, a, g))
    && (g in t.gos && g !in s.gos ==> a.Admit? && g == s.nextGo && t.gos[g].cause == Reaches(s, a, g))
    && s.nextGo <= t.nextGo && (a.Admit? ==> t.nextGo == s.nextGo + 1)
    && t.nextJob == s.nextJob + (if a.Create? then 1 else 0)
  }

  lemma AsksMoveCause(s: State, a: Action, g: GoId)
    requires Enabled(s, a) && AsksOrSettles(a)
    ensures CauseMoves(s, a, Step(s, a), g)
  {
    if a.Detach? {
      DetachFires(s, a.guid, a.b, a.a);
      DetachWritesNothing(s, a.guid, a.b, a.a);
      DetachKeepsNext(s, a.guid, a.b, a.a);
    }
  }

  lemma DetachKeepsNext(s: State, guid: Guid, b: Option<JobId>, a: Option<Serial>)
    ensures DoDetach(s, guid, b, a).nextGo == s.nextGo && DoDetach(s, guid, b, a).nextJob == s.nextJob
  {
    var s1 := if guid in s.t.byGUID then s.(gos := Fire(s.gos, s.t.byGUID[guid].go, CardRemoved)) else s;
    var s2 := if b.Some? then LoopTakesBlocked(s1, b.value) else s1;
    assert s1.nextGo == s.nextGo && s1.nextJob == s.nextJob;
    assert s2.nextGo == s.nextGo && s2.nextJob == s.nextJob;
  }

  lemma AdmitsMoveCause(s: State, a: Action, g: GoId)
    requires IdsOk(s) && Enabled(s, a) && AdmitsOrRetries(a)
    ensures CauseMoves(s, a, Step(s, a), g)
  {
  }

  lemma OutsideMovesCause(s: State, a: Action, g: GoId)
    requires Enabled(s, a) && ComesFromOutside(a)
    ensures CauseMoves(s, a, Step(s, a), g)
  {
    if a.Cancel? {
      CancelMovesCause(s, a.job, a.f, g);
    }
  }

  lemma CancelMovesCause(s: State, j: JobId, f: Found, g: GoId)
    ensures CauseMoves(s, Cancel(j, f), DoCancel(s, j, f), g)
  {
  }

  lemma RunnersMoveCause(s: State, a: Action, g: GoId)
    requires Enabled(s, a) && IsRunners(a)
    ensures CauseMoves(s, a, Step(s, a), g)
  {
  }

  lemma StepMovesCause(s: State, a: Action, g: GoId)
    requires IdsOk(s) && Enabled(s, a)
    ensures CauseMoves(s, a, Step(s, a), g)
  {
    if AsksOrSettles(a) {
      AsksMoveCause(s, a, g);
    } else if AdmitsOrRetries(a) {
      AdmitsMoveCause(s, a, g);
    } else if ComesFromOutside(a) {
      OutsideMovesCause(s, a, g);
    } else {
      RunnersMoveCause(s, a, g);
    }
  }

  /** A run's context is cancelled exactly by the first of these to reach it: a Cancel call that finds the run,
      a detach that finds it, a shutdown. */
  lemma {:induction false} CauseExactlyWhen(maxJobs: nat, log: seq<Action>, g: GoId)
    requires Legal(Start(maxJobs), log)
    ensures var s := Run(Start(maxJobs), log);
      && (g in s.gos ==> s.gos[g].cause == FirstCause(maxJobs, log, g))
      && (g >= s.nextGo ==> FirstCause(maxJobs, log, g).None?)
  {
    if log != [] {
      var before, a := log[..|log| - 1], log[|log| - 1];
      CauseExactlyWhen(maxJobs, before, g);
      StartOk(maxJobs);
      RunKeeps(Start(maxJobs), before);
      StepMovesCause(Run(Start(maxJobs), before), a, g);
    }
  }

  // ---- what decided about a job -----------------------------------------------------------

  /** The end, if any, that action `a` decides for job `j`: a detach or a Cancel call that takes it out of the maps,
      an answer other than copy, the end of its run. */
  function Passes(s: State, a: Action, j: JobId): Option<Status> {
    match a
    case Detach(_, b, x) =>
      if b == Some(j) then Some(Failed)
      else if x.Some? && x.value in s.t.awaiting && s.t.awaiting[x.value].job == j then Some(Cancelled)
      else None
    case Decide(x, copy) =>
      if !copy && x in s.t.awaiting && s.t.awaiting[x].job == j then Some(Cancelled) else None
    case Cancel(i, f) => if i == j && (f.AsBlocked? || f.AsAwaiting?) then Some(Cancelled) else None
    case Runner(g, status, _, _) =>
      if g in s.gos && s.gos[g].q.job == j && status.Terminal() then Some(status) else None
    case _ => None
  }

  /** The last end the log decided for `j`. */
  function Verdict(maxJobs: nat, log: seq<Action>, j: JobId): Option<Status>
    requires Legal(Start(maxJobs), log)
  {
    if log == [] then None
    else
      var before := log[..|log| - 1];
      Later(Verdict(maxJobs, before, j), Passes(Run(Start(maxJobs), before), log[|log| - 1], j))
  }

  function Later(v: Option<Status>, w: Option<Status>): Option<Status> {
    if w.Some? then w else v
  }

  /** Where a job is, given what was decided about it. */
  predicate Fits(s: State, j: JobId, v: Option<Status>)
    requires j in s.at && j in s.rows
  {
    && (j in s.displaced || j in s.abandoned ==> s.at[j].Gone?) && (j in s.abandoned ==> s.rows[j].Pending?)
    && match s.at[j]
       case Awaits(_) => v.None?
       case Blocks => v.None?
       case Runs(g) => if InStage(s, g, Returned(false)) then v == Some(s.rows[j]) else v.None?
       case WithLoop => v == Closes(s.loop, j)
       case Listed => v == Some(Cancelled) && (j in s.finishing || s.rows[j] == Cancelled)
       case WithCancel => v == Some(Cancelled)
       case Gone => if j in s.displaced || j in s.abandoned then v.None? else v == Some(s.rows[j])
  }

  /** What the loop is about to write to the row of `j` as its end. */
  function Closes(loop: Loop, j: JobId): Option<Status> {
    match loop
    case Closing(w, next) =>
      if w.job == j then Some(w.status)
      else if next.Some? && next.value.job == j then Some(next.value.status) else None
    case _ => None
  }

  predicate FitsIf(s: State, j: JobId, v: Option<Status>) {
    && (j in s.at && j in s.rows && j !in s.revived ==> Fits(s, j, v))
    && (j !in s.at ==> v.None?)
  }

  /** The job keeps its place, its row and what is due to it. */
  predicate Stays(s: State, t: State, j: JobId) {
    && (j in s.at <==> j in t.at) && (j in s.rows <==> j in t.rows)
    && (j in s.at && j in s.rows ==> t.at[j] == s.at[j] && t.rows[j] == s.rows[j])
    && (j in s.revived ==> j in t.revived) && (j in s.finishing <==> j in t.finishing)
    && (j in s.displaced <==> j in t.displaced) && (j in s.abandoned <==> j in t.abandoned)
    && (j in s.at && s.at[j].Runs? ==>
          (InStage(s, s.at[j].go, Returned(false)) <==> InStage(t, s.at[j].go, Returned(false))))
  }

  lemma StaysFits(s: State, t: State, j: JobId, v: Option<Status>)
    requires FitsIf(s, j, v) && Stays(s, t, j) && LoopOk(s)
    requires s.loop.Holds(j) ==> t.loop == s.loop
    ensures FitsIf(t, j, v)
  {
  }

  lemma CreateFits(s: State, guid: Guid, serial: Serial, ask: bool, j: JobId, v: Option<Status>)
    requires IdsOk(s) && LoopOk(s) && PastOk(s) && FitsIf(s, j, v) && s.loop == Attaching(guid, serial)
    ensures FitsIf(DoCreate(s, guid, serial, ask), j, v)
  {
  }

  lemma DisplaceFits(s: State, x: Serial, q: QueuedJob, j: JobId, v: Option<Status>)
    requires FitsIf(s, j, v) && q.job in s.at && s.at[q.job].Awaits?
    ensures FitsIf(Displace(s, x, q), j, v)
  {
  }

  lemma FileFreeFits(s: State, q: QueuedJob, j: JobId, v: Option<Status>)
    requires LoopOk(s) && FitsIf(s, j, v) && s.loop == Asking(q) && q.job in s.at && s.at[q.job].WithLoop?
    ensures FitsIf(FileFree(s, q), j, v)
  {
  }

  lemma FileFits(s: State, q: QueuedJob, j: JobId, v: Option<Status>)
    requires AwaitingOk(s) && LoopOk(s) && FitsIf(s, j, v) && s.loop == Asking(q)
    ensures FitsIf(DoFileQuestion(s, q), j, v)
  {
    assert s.loop.Holds(q.job);
    if q.serial in s.t.awaiting {
      DisplaceFits(s, q.serial, s.t.awaiting[q.serial], j, v);
      FileFreeFits(Displace(s, q.serial, s.t.awaiting[q.serial]), q, j, v);
    } else {
      FileFreeFits(s, q, j, v);
    }
  }

  lemma FireStays(s: State, g: GoId, cause: Cause, j: JobId)
    ensures Stays(s, s.(gos := Fire(s.gos, g, cause)), j)
  {
  }

  lemma TakesBlockedFits(s: State, b: JobId, j: JobId, v: Option<Status>)
    requires LoopOk(s) && FitsIf(s, j, v) && s.loop.Idle? && b in s.at && s.at[b].Blocks?
    ensures FitsIf(LoopTakesBlocked(s, b), j, if b == j then Some(Failed) else v)
  {
    assert !s.loop.Holds(j);
  }

  lemma TakesAwaitingFits(s: State, x: Serial, q: QueuedJob, j: JobId, v: Option<Status>)
    requires FitsIf(s, j, v) && q.job in s.at && s.at[q.job].Awaits?
    requires s.loop.Idle? || (s.loop.Closing? && s.loop.next.None? && s.loop.now.job != q.job)
    requires j in s.at && s.at[j].WithLoop? ==> s.loop.Holds(j)
    ensures FitsIf(LoopTakesAwaiting(s, x, q), j, if q.job == j then Some(Cancelled) else v)
  {
  }

  lemma FireFits(s: State, g: GoId, cause: Cause, j: JobId, v: Option<Status>)
    requires AwaitingOk(s) && BlockedOk(s) && LoopOk(s) && FitsIf(s, j, v)
    ensures var t := s.(gos := Fire(s.gos, g, cause));
      AwaitingOk(t) && BlockedOk(t) && LoopOk(t) && FitsIf(t, j, v)
  {
    FireStays(s, g, cause, j);
    StaysFits(s, s.(gos := Fire(s.gos, g, cause)), j, v);
  }

  lemma DetachPasses(s: State, guid: Guid, b: Option<JobId>, a: Option<Serial>, j: JobId, v: Option<Status>)
    requires a.Some? ==> a.value in s.t.awaiting
    ensures Later(v, Passes(s, Detach(guid, b, a), j)) ==
              if b == Some(j) then Some(Failed)
              else if a.Some? && s.t.awaiting[a.value].job == j then Some(Cancelled) else v
  {
  }

  lemma DetachFits(s: State, guid: Guid, b: Option<JobId>, a: Option<Serial>, j: JobId, v: Option<Status>)
    requires AwaitingOk(s) && BlockedOk(s) && LoopOk(s) && FitsIf(s, j, v)
    requires s.loop.Idle? && PicksBlocked(s.t, guid, b) && PicksAwaiting(s.t, guid, a)
    ensures FitsIf(DoDetach(s, guid, b, a), j, Later(v, Passes(s, Detach(guid, b, a), j)))
  {
    DetachPasses(s, guid, b, a, j, v);
    if guid in s.t.byGUID {
      FireFits(s, s.t.byGUID[guid].go, CardRemoved, j, v);
      TakesFits(s.(gos := Fire(s.gos, s.t.byGUID[guid].go, CardRemoved)), b, a, j, v);
    } else {
      TakesFits(s, b, a, j, v);
    }
  }

  lemma TakesFits(s: State, b: Option<JobId>, a: Option<Serial>, j: JobId, v: Option<Status>)
    requires AwaitingOk(s) && BlockedOk(s) && LoopOk(s) && FitsIf(s, j, v) && s.loop.Idle?
    requires (b.Some? ==> b.value in s.t.blocked) && (a.Some? ==> a.value in s.t.awaiting)
    ensures var t := if b.Some? then LoopTakesBlocked(s, b.value) else s;
      FitsIf(if a.Some? && a.value in t.t.awaiting then LoopTakesAwaiting(t, a.value, t.t.awaiting[a.value]) else t, j,
             if b == Some(j) then Some(Failed)
             else if a.Some? && s.t.awaiting[a.value].job == j then Some(Cancelled) else v)
  {
    var t := if b.Some? then LoopTakesBlocked(s, b.value) else s;
    var w := if b == Some(j) then Some(Failed) else v;
    if b.Some? {
      TakesBlockedFits(s, b.value, j, v);
    }
    assert j in t.at && t.at[j].WithLoop? ==> t.loop.Holds(j) by {
      assert j in s.at && s.at[j].WithLoop? ==> s.loop.Holds(j);
    }
    if a.Some? {
      TakesAwaitingFits(t, a.value, t.t.awaiting[a.value], j, w);
    }
  }

  lemma SettleFits(s: State, w: Write, next: Option<Write>, j: JobId, v: Option<Status>)
    requires IdsOk(s) && LoopOk(s) && FitsIf(s, j, v) && s.loop == Closing(w, next)
    ensures FitsIf(DoSettle(s, w, next), j, v)
  {
    assert s.loop.Holds(w.job);
  }

  lemma DecideCopyFits(s: State, x: Serial, q: QueuedJob, j: JobId, v: Option<Status>)
    requires LoopOk(s) && FitsIf(s, j, v) && s.loop.Idle? && q.job in s.at && s.at[q.job].Awaits?
    ensures FitsIf(DoDecideCopy(s, x, q), j, v)
  {
    assert !s.loop.Holds(j);
  }

  lemma DecideWriteFits(s: State, q: QueuedJob, j: JobId, v: Option<Status>)
    requires IdsOk(s) && LoopOk(s) && FitsIf(s, j, v) && s.loop == Deciding(q)
    ensures FitsIf(DoDecideWrite(s, q), j, v)
  {
    assert s.loop.Holds(q.job);
  }

  lemma LoopMoves(s: State, loop: Loop, j: JobId, v: Option<Status>)
    requires LoopOk(s) && FitsIf(s, j, v) && !s.loop.Holds(j)
    ensures FitsIf(s.(loop := loop), j, v)
  {
    assert Stays(s, s.(loop := loop), j);
  }

  lemma AsksFits(s: State, a: Action, j: JobId, v: Option<Status>)
    requires IdsOk(s) && Filed(s) && LoopOk(s) && PastOk(s) && FitsIf(s, j, v) && Enabled(s, a) && AsksOrSettles(a)
    ensures FitsIf(Step(s, a), j, Later(v, Passes(s, a, j)))
  {
    match a
    case Look(guid, serial) => LoopMoves(s, Attaching(guid, serial), j, v);
    case Ignore => LoopMoves(s, Idle, j, v);
    case Create(guid, serial, ask) => CreateFits(s, guid, serial, ask, j, v);
    case FileQuestion => FileFits(s, s.loop.q, j, v);
    case Detach(guid, b, x) => DetachFits(s, guid, b, x, j, v);
    case Settle => SettleFits(s, s.loop.now, s.loop.next, j, v);
    case Decide(x, copy) =>
      if copy {
        DecideCopyFits(s, x, s.t.awaiting[x], j, v);
      } else {
        TakesAwaitingFits(s, x, s.t.awaiting[x], j, v);
      }
    case DecideWrite => DecideWriteFits(s, s.loop.q, j, v);
  }

  lemma AdmitFits(s: State, q: QueuedJob, rest: seq<QueuedJob>, j: JobId, v: Option<Status>)
    requires IdsOk(s) && GosOk(s) && LoopOk(s) && FitsIf(s, j, v) && s.loop == Admitting(q, rest)
    ensures FitsIf(DoAdmit(s, q, rest), j, v)
  {
    assert s.loop.Holds(q.job);
  }

  lemma RetryFits(s: State, q: QueuedJob, rest: seq<QueuedJob>, j: JobId, v: Option<Status>)
    requires BlockedOk(s) && LoopOk(s) && FitsIf(s, j, v) && s.loop.Retrying? && q.job in s.at
    ensures FitsIf(DoRetryNext(s, q, rest), j, v)
  {
    assert !s.loop.Holds(j);
  }

  lemma ProbeFailsFits(s: State, j: JobId, v: Option<Status>)
    requires LoopOk(s) && FitsIf(s, j, v) && s.loop.Probing?
    ensures FitsIf(DoProbeFails(s), j, v)
  {
    assert !s.loop.Holds(j);
  }

  lemma AdmitsFits(s: State, a: Action, j: JobId, v: Option<Status>)
    requires IdsOk(s) && Filed(s) && LoopOk(s) && TodoOk(s) && FitsIf(s, j, v) && Enabled(s, a) && AdmitsOrRetries(a)
    ensures FitsIf(Step(s, a), j, v)
  {
    match a
    case Admit => AdmitFits(s, s.loop.q, s.loop.rest, j, v);
    case Probe(order) => LoopMoves(s, Probing(order), j, v);
    case ProbeFails => ProbeFailsFits(s, j, v);
    case ProbeWorks => LoopMoves(s, Retrying(s.loop.todo), j, v);
    case RetryNext =>
      assert StillListed(s, s.loop.Todo()[0]);
      RetryFits(s, s.loop.todo[0], s.loop.todo[1..], j, v);
    case RetryDone => LoopMoves(s, Idle, j, v);
  }

  lemma CancelFits(s: State, i: JobId, f: Found, j: JobId, v: Option<Status>)
    requires AwaitingOk(s) && BlockedOk(s) && LoopOk(s) && FitsIf(s, j, v) && IsFound(s.t, i, f)
    ensures FitsIf(DoCancel(s, i, f), j, Later(v, Passes(s, Cancel(i, f), j)))
  {
    if f.AsRunning? {
      FireStays(s, f.go, UserCancelled, j);
      StaysFits(s, DoCancel(s, i, f), j, v);
    }
  }

  lemma CancelWriteFits(s: State, i: JobId, j: JobId, v: Option<Status>)
    requires IdsOk(s) && LoopOk(s) && FinishingOk(s) && FitsIf(s, j, v) && i in s.finishing
    ensures FitsIf(DoCancelWrite(s, i), j, v)
  {
  }

  lemma GoDownStays(s: State, j: JobId)
    ensures Stays(s, DoGoDown(s), j)
  {
  }

  lemma OutsideFits(s: State, a: Action, j: JobId, v: Option<Status>)
    requires IdsOk(s) && Filed(s) && LoopOk(s) && FinishingOk(s) && FitsIf(s, j, v)
    requires Enabled(s, a) && ComesFromOutside(a)
    ensures FitsIf(Step(s, a), j, Later(v, Passes(s, a, j)))
  {
    match a
    case Cancel(i, f) => CancelFits(s, i, f, j, v);
    case CancelWrite(i) => CancelWriteFits(s, i, j, v);
    case GoDown =>
      GoDownStays(s, j);
      StaysFits(s, DoGoDown(s), j, v);
  }

  lemma RunOwnFits(s: State, g: GoId, status: Status, topic: Topic, stage: Stage, v: Option<Status>)
    requires RunMay(s, g, status, topic, stage) && FitsIf(s, s.gos[g].q.job, v)
    requires var j := s.gos[g].q.job; j in s.at && j in s.rows && s.at[j] == Runs(g)
    ensures FitsIf(RunStep(s, g, status, topic, stage), s.gos[g].q.job, if status.Terminal() then Some(status) else v)
  {
  }

  lemma RunOtherStays(s: State, g: GoId, status: Status, topic: Topic, stage: Stage, j: JobId)
    requires GosOk(s) && g in s.gos && s.gos[g].q.job != j
    ensures Stays(s, RunStep(s, g, status, topic, stage), j)
  {
  }

  lemma RunOtherFits(s: State, g: GoId, status: Status, topic: Topic, stage: Stage, j: JobId, v: Option<Status>)
    requires GosOk(s) && LoopOk(s) && FitsIf(s, j, v) && g in s.gos && s.gos[g].q.job != j
    ensures FitsIf(RunStep(s, g, status, topic, stage), j, v)
  {
    RunOtherStays(s, g, status, topic, stage, j);
    StaysFits(s, RunStep(s, g, status, topic, stage), j, v);
  }

  lemma RunPasses(s: State, g: GoId, status: Status, topic: Topic, stage: Stage, j: JobId, v: Option<Status>)
    requires g in s.gos
    ensures Later(v, Passes(s, Runner(g, status, topic, stage), j)) ==
              if s.gos[g].q.job == j && status.Terminal() then Some(status) else v
  {
  }

  lemma OwnRuns(s: State, g: GoId, status: Status, topic: Topic, stage: Stage)
    requires IdsOk(s) && GosOk(s) && RunMay(s, g, status, topic, stage)
    ensures var j := s.gos[g].q.job; j in s.at && j in s.rows && s.at[j] == Runs(g)
  {
    assert s.gos[g].HoldsJob();
  }

  lemma RunFits(s: State, g: GoId, status: Status, topic: Topic, stage: Stage, j: JobId, v: Option<Status>)
    requires IdsOk(s) && GosOk(s) && LoopOk(s) && FitsIf(s, j, v) && RunMay(s, g, status, topic, stage)
    ensures FitsIf(RunStep(s, g, status, topic, stage), j, Later(v, Passes(s, Runner(g, status, topic, stage), j)))
  {
    RunPasses(s, g, status, topic, stage, j, v);
    if s.gos[g].q.job == j {
      OwnRuns(s, g, status, topic, stage);
      RunOwnFits(s, g, status, topic, stage, v);
    } else {
      RunOtherFits(s, g, status, topic, stage, j, v);
    }
  }

  lemma StageFits(s: State, g: GoId, stage: Stage, j: JobId, v: Option<Status>)
    requires FitsIf(s, j, v) && LoopOk(s) && g in s.gos && !s.gos[g].stage.Returned? && !stage.Returned?
    ensures FitsIf(SetStage(s, g, stage), j, v) && LoopOk(SetStage(s, g, stage))
  {
    assert Stays(s, SetStage(s, g, stage), j);
    StaysFits(s, SetStage(s, g, stage), j, v);
  }

  lemma RegisterFits(s: State, g: GoId, j: JobId, v: Option<Status>)
    requires FitsIf(s, j, v) && LoopOk(s) && InStage(s, g, Admitted)
    ensures FitsIf(DoRegister(s, g), j, v)
  {
    assert Stays(s, DoRegister(s, g), j);
    StaysFits(s, DoRegister(s, g), j, v);
  }

  lemma ReleaseFits(s: State, g: GoId, j: JobId, v: Option<Status>)
    requires FitsIf(s, j, v) && LoopOk(s) && InStage(s, g, Leaving)
    ensures FitsIf(s.(gos := s.gos - {g}), j, v)
  {
    assert Stays(s, s.(gos := s.gos - {g}), j);
    StaysFits(s, s.(gos := s.gos - {g}), j, v);
  }

  lemma QuitFits(s: State, g: GoId, j: JobId, v: Option<Status>)
    requires GosOk(s) && FitsIf(s, j, v) && InStage(s, g, Queueing) && QueuedPending(s, g)
    ensures FitsIf(DoQuit(s, g), j, v)
  {
    assert s.gos[g].HoldsJob();
  }

  lemma UnregisterFits(s: State, g: GoId, j: JobId, v: Option<Status>)
    requires GosOk(s) && FitsIf(s, j, v) && g in s.gos && s.gos[g].stage.Returned?
    ensures FitsIf(DoUnregister(s, g), j, v)
  {
    assert s.gos[g].HoldsJob();
  }

  /** The job of a waiting goroutine is pending, unless revived. */
  predicate QueuedPending(s: State, g: GoId) {
    g in s.gos && var j := s.gos[g].q.job; j in s.rows && (j in s.revived || s.rows[j].Pending?)
  }

  lemma QueuedIsPending(s: State, g: GoId)
    requires GosOk(s) && IdsOk(s) && JobsOk(s) && InStage(s, g, Queueing)
    ensures QueuedPending(s, g)
  {
    assert s.gos[g].HoldsJob();
    assert JobOk(s, s.gos[g].q.job);
  }

  lemma SlotsFit(s: State, a: Action, j: JobId, v: Option<Status>)
    requires GosOk(s) && LoopOk(s) && FitsIf(s, j, v) && Enabled(s, a)
    requires a.Acquire? || a.Register? || a.Unregister? || a.Release?
    ensures FitsIf(Step(s, a), j, v)
  {
    match a
    case Acquire(g) => StageFits(s, g, Admitted, j, v);
    case Register(g) => RegisterFits(s, g, j, v);
    case Unregister(g) => UnregisterFits(s, g, j, v);
    case Release(g) => ReleaseFits(s, g, j, v);
  }

  lemma RunnerFits(s: State, a: Action, j: JobId, v: Option<Status>)
    requires IdsOk(s) && GosOk(s) && LoopOk(s) && FitsIf(s, j, v) && Enabled(s, a) && a.Runner?
    ensures FitsIf(Step(s, a), j, Later(v, Passes(s, a, j)))
  {
    RunFits(s, a.go, a.status, a.topic, a.stage, j, v);
  }

  lemma StepFits(s: State, a: Action, j: JobId, v: Option<Status>)
    requires Inv(s) && Enabled(s, a) && FitsIf(s, j, v)
    ensures FitsIf(Step(s, a), j, Later(v, Passes(s, a, j)))
  {
    if AsksOrSettles(a) {
      AsksFits(s, a, j, v);
    } else if AdmitsOrRetries(a) {
      AdmitsFits(s, a, j, v);
    } else if ComesFromOutside(a) {
      OutsideFits(s, a, j, v);
    } else if a.Runner? {
      RunnerFits(s, a, j, v);
    } else if a.Quit? {
      QueuedIsPending(s, a.go);
      QuitFits(s, a.go, j, v);
    } else {
      SlotsFit(s, a, j, v);
    }
  }

  lemma {:induction false} VerdictFits(maxJobs: nat, log: seq<Action>, j: JobId)
    requires Legal(Start(maxJobs), log)
    ensures FitsIf(Run(Start(maxJobs), log), j, Verdict(maxJobs, log, j))
  {
    if log != [] {
      var before, a := log[..|log| - 1], log[|log| - 1];
      VerdictFits(maxJobs, before, j);
      StartOk(maxJobs);
      RunKeeps(Start(maxJobs), before);
      StepFits(Run(Start(maxJobs), before), a, j, Verdict(maxJobs, before, j));
    }
  }

  /** A job that is over and was not revived ended as the log last decided; and what the log decided
      is in the row, or the loop or a Cancel call has it still to write. */
  lemma EndsAsDecided(maxJobs: nat, log: seq<Action>, j: JobId)
    requires Legal(Start(maxJobs), log)
    ensures var s, v := Run(Start(maxJobs), log), Verdict(maxJobs, log, j);
      j in s.rows && j !in s.revived ==>
        && (s.rows[j].Terminal() ==> v == Some(s.rows[j]))
        && (v.Some? ==> s.rows[j] == v.value || s.loop.Holds(j) || j in s.finishing)
  {
    var s := Run(Start(maxJobs), log);
    VerdictFits(maxJobs, log, j);
    StartOk(maxJobs);
    RunKeeps(Start(maxJobs), log);
    if j in s.rows && j !in s.revived {
      assert JobOk(s, j);
      FitsEnds(s, j, Verdict(maxJobs, log, j));
    }
  }

  lemma FitsEnds(s: State, j: JobId, v: Option<Status>)
    requires j in s.at && j in s.rows && Fits(s, j, v) && StatusFits(s, j) && OwnerFits(s, j)
    requires LoopOk(s) && GosOk(s) && FinishingOk(s)
    ensures s.rows[j].Terminal() ==> v == Some(s.rows[j])
    ensures v.Some? ==> s.rows[j] == v.value || s.loop.Holds(j) || j in s.finishing
  {
  }

  // ---- what the operator's answer led to --------------------------------------------------

  /** The log asked about `j` when it created it. */
  predicate Asked(maxJobs: nat, log: seq<Action>, j: JobId)
    requires Legal(Start(maxJobs), log)
  {
    log != [] &&
    (var before, a := log[..|log| - 1], log[|log| - 1];
     Asked(maxJobs, before, j) || (a.Create? && a.ask && j == Run(Start(maxJobs), before).nextJob))
  }

  /** The operator says copy about `j`. */
  predicate SaysCopy(s: State, a: Action, j: JobId) {
    a.Decide? && a.copy && a.serial in s.t.awaiting && s.t.awaiting[a.serial].job == j
  }

  predicate Answered(maxJobs: nat, log: seq<Action>, j: JobId)
    requires Legal(Start(maxJobs), log)
  {
    log != [] &&
    (Answered(maxJobs, log[..|log| - 1], j) || SaysCopy(Run(Start(maxJobs), log[..|log| - 1]), log[|log| - 1], j))
  }

  /** The row said `pending` at some time. */
  predicate EverPending(maxJobs: nat, log: seq<Action>, j: JobId)
    requires Legal(Start(maxJobs), log)
  {
    || (var s := Run(Start(maxJobs), log); j in s.rows && s.rows[j].Pending?)
    || (log != [] && EverPending(maxJobs, log[..|log| - 1], j))
  }

  /** The loop has taken the answer and not written the row yet. */
  predicate BeingDecided(s: State, j: JobId) {
    s.loop.Deciding? && s.loop.q.job == j && j in s.rows && !s.rows[j].Pending?
  }

  /** Still a question, or given up as one. */
  predicate Unanswered(s: State, j: JobId) {
    && j in s.at && j in s.rows && !s.rows[j].Pending?
    && match s.at[j]
       case Awaits(_) => true
       case WithCancel => true
       case Gone => true
       case WithLoop => s.loop.Asking? || s.loop.Closing?
       case _ => false
  }

  /** No question any more. */
  predicate Past(s: State, j: JobId) {
    j in s.at && !s.at[j].Awaits? && !((s.loop.Asking? || s.loop.Deciding?) && s.loop.q.job == j)
  }

  /** How far the question about `j` is, is the same after as before. */
  predicate SameQuestion(s: State, t: State, j: JobId) {
    && (Unanswered(s, j) ==> Unanswered(t, j)) && (BeingDecided(s, j) ==> BeingDecided(t, j))
    && (Past(s, j) ==> Past(t, j))
  }

  lemma CreateKeepsQuestion(s: State, guid: Guid, serial: Serial, ask: bool, j: JobId)
    requires IdsOk(s) && LoopOk(s) && s.loop.Attaching?
    ensures SameQuestion(s, DoCreate(s, guid, serial, ask), j)
  {
    assert !s.loop.Holds(j);
  }

  lemma FileKeepsQuestion(s: State, q: QueuedJob, j: JobId)
    requires AwaitingOk(s) && LoopOk(s) && s.loop == Asking(q)
    ensures SameQuestion(s, DoFileQuestion(s, q), j)
  {
    assert s.loop.Holds(q.job);
  }

  lemma TakeBlockedKeepsQuestion(s: State, b: JobId, j: JobId)
    requires LoopOk(s) && s.loop.Idle? && b in s.at && s.at[b].Blocks?
    ensures SameQuestion(s, LoopTakesBlocked(s, b), j)
  {
    assert !s.loop.Holds(j);
  }

  lemma TakeAwaitingKeepsQuestion(s: State, x: Serial, q: QueuedJob, j: JobId)
    requires s.loop.Idle? || s.loop.Closing?
    ensures SameQuestion(s, LoopTakesAwaiting(s, x, q), j)
  {
  }

  lemma FireKeepsQuestion(s: State, g: GoId, cause: Cause, j: JobId)
    ensures SameQuestion(s, s.(gos := Fire(s.gos, g, cause)), j)
  {
  }

  lemma DetachKeepsQuestion(s: State, guid: Guid, b: Option<JobId>, a: Option<Serial>, j: JobId)
    requires BlockedOk(s) && LoopOk(s) && s.loop.Idle? && (b.Some? ==> b.value in s.t.blocked)
    ensures SameQuestion(s, DoDetach(s, guid, b, a), j)
  {
    var s1 := if guid in s.t.byGUID then s.(gos := Fire(s.gos, s.t.byGUID[guid].go, CardRemoved)) else s;
    if guid in s.t.byGUID {
      FireKeepsQuestion(s, s.t.byGUID[guid].go, CardRemoved, j);
    }
    var s2 := if b.Some? then LoopTakesBlocked(s1, b.value) else s1;
    if b.Some? {
      TakeBlockedKeepsQuestion(s1, b.value, j);
    }
    if a.Some? && a.value in s2.t.awaiting {
      TakeAwaitingKeepsQuestion(s2, a.value, s2.t.awaiting[a.value], j);
    }
  }

  lemma SettleKeepsQuestion(s: State, w: Write, next: Option<Write>, j: JobId)
    requires LoopOk(s) && s.loop == Closing(w, next)
    ensures SameQuestion(s, DoSettle(s, w, next), j)
  {
    assert s.loop.Holds(w.job);
  }

  lemma DecideKeepsQuestion(s: State, x: Serial, q: QueuedJob, j: JobId)
    requires LoopOk(s) && s.loop.Idle? && q.job in s.at && s.at[q.job].Awaits? && q.job != j
    ensures SameQuestion(s, DoDecideCopy(s, x, q), j)
  {
    assert !s.loop.Holds(j);
  }

  lemma DecideWriteKeepsQuestion(s: State, q: QueuedJob, j: JobId)
    requires LoopOk(s) && s.loop == Deciding(q) && q.job != j
    ensures SameQuestion(s, DoDecideWrite(s, q), j)
  {
  }

  lemma LoopKeepsQuestion(s: State, loop: Loop, j: JobId)
    requires LoopOk(s) && !s.loop.Holds(j) && !loop.Asking? && !loop.Deciding?
    ensures SameQuestion(s, s.(loop := loop), j)
  {
  }

  lemma AsksKeepQuestion(s: State, a: Action, j: JobId)
    requires IdsOk(s) && AwaitingOk(s) && BlockedOk(s) && LoopOk(s) && Enabled(s, a) && AsksOrSettles(a)
    requires !SaysCopy(s, a, j) && !(a.DecideWrite? && s.loop.q.job == j)
    ensures SameQuestion(s, Step(s, a), j)
  {
    match a
    case Look(guid, serial) => LoopKeepsQuestion(s, Attaching(guid, serial), j);
    case Ignore => LoopKeepsQuestion(s, Idle, j);
    case Create(guid, serial, ask) => CreateKeepsQuestion(s, guid, serial, ask, j);
    case FileQuestion => FileKeepsQuestion(s, s.loop.q, j);
    case Detach(guid, b, x) => DetachKeepsQuestion(s, guid, b, x, j);
    case Settle => SettleKeepsQuestion(s, s.loop.now, s.loop.next, j);
    case Decide(x, copy) =>
      if copy {
        DecideKeepsQuestion(s, x, s.t.awaiting[x], j);
      } else {
        TakeAwaitingKeepsQuestion(s, x, s.t.awaiting[x], j);
      }
    case DecideWrite => DecideWriteKeepsQuestion(s, s.loop.q, j);
  }

  lemma AdmitKeepsQuestion(s: State, q: QueuedJob, rest: seq<QueuedJob>, j: JobId)
    requires LoopOk(s) && s.loop == Admitting(q, rest)
    ensures SameQuestion(s, DoAdmit(s, q, rest), j)
  {
    assert s.loop.Holds(q.job);
  }

  lemma RetryKeepsQuestion(s: State, q: QueuedJob, rest: seq<QueuedJob>, j: JobId)
    requires LoopOk(s) && s.loop.Retrying? && StillListed(s, q)
    ensures SameQuestion(s, DoRetryNext(s, q, rest), j)
  {
    assert !s.loop.Holds(j);
  }

  lemma ProbeFailsKeepsQuestion(s: State, j: JobId)
    requires LoopOk(s) && s.loop.Probing?
    ensures SameQuestion(s, DoProbeFails(s), j)
  {
    assert !s.loop.Holds(j);
  }

  lemma AdmitsKeepQuestion(s: State, a: Action, j: JobId)
    requires LoopOk(s) && TodoOk(s) && Enabled(s, a) && AdmitsOrRetries(a)
    ensures SameQuestion(s, Step(s, a), j)
  {
    match a
    case Admit => AdmitKeepsQuestion(s, s.loop.q, s.loop.rest, j);
    case Probe(order) => LoopKeepsQuestion(s, Probing(order), j);
    case ProbeFails => ProbeFailsKeepsQuestion(s, j);
    case ProbeWorks => LoopKeepsQuestion(s, Retrying(s.loop.todo), j);
    case RetryNext =>
      assert StillListed(s, s.loop.Todo()[0]);
      RetryKeepsQuestion(s, s.loop.todo[0], s.loop.todo[1..], j);
    case RetryDone => LoopKeepsQuestion(s, Idle, j);
  }

  lemma CancelKeepsQuestion(s: State, i: JobId, f: Found, j: JobId)
    requires AwaitingOk(s) && BlockedOk(s) && IsFound(s.t, i, f)
    ensures SameQuestion(s, DoCancel(s, i, f), j)
  {
    if f.AsRunning? {
      FireKeepsQuestion(s, f.go, UserCancelled, j);
    }
  }

  lemma OutsideKeepsQuestion(s: State, a: Action, j: JobId)
    requires AwaitingOk(s) && BlockedOk(s) && Enabled(s, a) && ComesFromOutside(a)
    ensures SameQuestion(s, Step(s, a), j)
  {
    if a.Cancel? {
      CancelKeepsQuestion(s, a.job, a.f, j);
    }
  }

  lemma RunKeepsQuestion(s: State, g: GoId, status: Status, topic: Topic, stage: Stage, j: JobId)
    requires GosOk(s) && LoopOk(s) && RunMay(s, g, status, topic, stage)
    ensures SameQuestion(s, RunStep(s, g, status, topic, stage), j)
  {
    assert s.gos[g].HoldsJob();
  }

  lemma RunnersKeepQuestion(s: State, a: Action, j: JobId)
    requires GosOk(s) && LoopOk(s) && Enabled(s, a) && IsRunners(a)
    ensures SameQuestion(s, Step(s, a), j)
  {
    if a.Runner? {
      RunKeepsQuestion(s, a.go, a.status, a.topic, a.stage, j);
    }
  }

  lemma StepKeepsQuestion(s: State, a: Action, j: JobId)
    requires Inv(s) && Enabled(s, a) && !SaysCopy(s, a, j) && !(a.DecideWrite? && s.loop.q.job == j)
    ensures SameQuestion(s, Step(s, a), j)
  {
    if AsksOrSettles(a) {
      AsksKeepQuestion(s, a, j);
    } else if AdmitsOrRetries(a) {
      AdmitsKeepQuestion(s, a, j);
    } else if ComesFromOutside(a) {
      OutsideKeepsQuestion(s, a, j);
    } else {
      RunnersKeepQuestion(s, a, j);
    }
  }

  lemma CopyAnswers(s: State, a: Action, j: JobId)
    requires AwaitingOk(s) && Enabled(s, a) && SaysCopy(s, a, j)
    ensures Unanswered(s, j) ==> BeingDecided(Step(s, a), j)
    ensures !Past(s, j) && !BeingDecided(s, j)
  {
  }

  lemma WriteDecides(s: State, a: Action, j: JobId)
    requires LoopOk(s) && Enabled(s, a) && a.DecideWrite? && s.loop.q.job == j
    ensures Past(Step(s, a), j) && Step(s, a).rows[j].Pending? && !Unanswered(s, j) && !Past(s, j)
  {
    assert s.loop.Holds(j);
  }

  lemma AskingBegins(s: State, a: Action, j: JobId)
    requires IdsOk(s) && Enabled(s, a) && a.Create? && a.ask && j == s.nextJob
    ensures Unanswered(Step(s, a), j)
  {
  }

  /** How far the question about `j` is, and whether it was answered and the row ever pending. */
  predicate AnswerOk(s: State, j: JobId, answered: bool, pending: bool) {
    || (!answered && !pending && Unanswered(s, j))
    || (answered && !pending && BeingDecided(s, j))
    || (answered && pending && Past(s, j))
  }

  lemma NotAskedBefore(maxJobs: nat, log: seq<Action>, j: JobId)
    requires Legal(Start(maxJobs), log) && j >= Run(Start(maxJobs), log).nextJob
    ensures !Asked(maxJobs, log, j) && !Answered(maxJobs, log, j) && !EverPending(maxJobs, log, j)
  {
    StartOk(maxJobs);
    RunKeeps(Start(maxJobs), log);
    if log != [] {
      var before, a := log[..|log| - 1], log[|log| - 1];
      RunKeeps(Start(maxJobs), before);
      StepMovesCause(Run(Start(maxJobs), before), a, 0);
      NotAskedBefore(maxJobs, before, j);
      NoQuestionYet(Run(Start(maxJobs), before), a, j);
    }
  }

  lemma NoQuestionYet(s: State, a: Action, j: JobId)
    requires IdsOk(s) && AwaitingOk(s) && j >= s.nextJob
    ensures !SaysCopy(s, a, j)
  {
  }

  lemma StepAnswers(s: State, a: Action, j: JobId, answered: bool, pending: bool)
    requires Inv(s) && Enabled(s, a) && AnswerOk(s, j, answered, pending)
    ensures var t := Step(s, a);
      AnswerOk(t, j, answered || SaysCopy(s, a, j), pending || (j in t.rows && t.rows[j].Pending?))
  {
    if SaysCopy(s, a, j) {
      CopyAnswers(s, a, j);
    } else if a.DecideWrite? && s.loop.q.job == j {
      WriteDecides(s, a, j);
    } else {
      StepKeepsQuestion(s, a, j);
    }
  }

  lemma {:induction false} QuestionKept(maxJobs: nat, log: seq<Action>, j: JobId)
    requires Legal(Start(maxJobs), log) && Asked(maxJobs, log, j)
    ensures AnswerOk(Run(Start(maxJobs), log), j, Answered(maxJobs, log, j), EverPending(maxJobs, log, j))
  {
    var before, a := log[..|log| - 1], log[|log| - 1];
    StartOk(maxJobs);
    RunKeeps(Start(maxJobs), before);
    if Asked(maxJobs, before, j) {
      QuestionKept(maxJobs, before, j);
      StepAnswers(Run(Start(maxJobs), before), a, j, Answered(maxJobs, before, j), EverPending(maxJobs, before, j));
    } else {
      NotAskedBefore(maxJobs, before, j);
      AskingBegins(Run(Start(maxJobs), before), a, j);
    }
  }

  /** A job that was asked about becomes pending, and so may ever copy, exactly if the operator says copy; between the
      answer and the row, the loop has it in hand. */
  lemma PendingExactlyWhenAnswered(maxJobs: nat, log: seq<Action>, j: JobId)
    requires Legal(Start(maxJobs), log) && Asked(maxJobs, log, j)
    ensures EverPending(maxJobs, log, j) <==>
              Answered(maxJobs, log, j) && !BeingDecided(Run(Start(maxJobs), log), j)
  {
    QuestionKept(maxJobs, log, j);
  }
}
