/** Which jobs of a volume the manager can see: when a run keeps its `byGUID` entry, when a volume
    counts as tracked, and when a volume gets a second job. */
module ManagerVolumes {
  import opened Text
  import opened Jobs
  import opened ManagerTables
  import opened JobEvents
  import opened ManagerProtocol
  import opened ManagerRuns
  import opened ManagerTheorems

  // ---- the `byGUID` entry of a run --------------------------------------------------------

  /** `a` registers or unregisters a goroutine of the same volume as `g`. */
  predicate Displaces(s: State, a: Action, g: GoId) {
    && g in s.gos && (a.Register? || a.Unregister?) && a.go in s.gos
    && s.gos[a.go].q.guid == s.gos[g].q.guid
  }

  /** `g` has registered, and no goroutine of the same volume has registered or unregistered since. */
  predicate Kept(maxJobs: nat, log: seq<Action>, g: GoId)
    requires Legal(Start(maxJobs), log)
  {
    log != [] &&
    (var before, a := log[..|log| - 1], log[|log| - 1];
     a == Register(g) || (Kept(maxJobs, before, g) && !Displaces(Run(Start(maxJobs), before), a, g)))
  }

  predicate Entered(s: State, g: GoId) {
    g in s.gos && s.gos[g].q.guid in s.t.byGUID && s.t.byGUID[s.gos[g].q.guid].go == g
  }

  lemma NamedIsEntered(s: State, g: GoId)
    requires ByGUIDOk(s)
    ensures Named(s, g) <==> Entered(s, g)
  {
    if x :| x in s.t.byGUID && s.t.byGUID[x].go == g {
      assert s.gos[g].q.guid == x;
    }
  }

  lemma RegisterEnters(s: State, h: GoId, g: GoId)
    requires ByGUIDOk(s) && InStage(s, h, Admitted)
    ensures Entered(DoRegister(s, h), g) <==> g == h || (Entered(s, g) && !Displaces(s, Register(h), g))
  {
  }

  lemma UnregisterEnters(s: State, h: GoId, g: GoId)
    requires ByGUIDOk(s) && h in s.gos && s.gos[h].stage.Returned?
    ensures Entered(DoUnregister(s, h), g) <==> Entered(s, g) && !Displaces(s, Unregister(h), g)
  {
  }

  lemma OthersEnter(s: State, a: Action, g: GoId)
    requires Inv(s) && Enabled(s, a) && !a.Register? && !a.Unregister?
    ensures Named(Step(s, a), g) <==> Named(s, g)
  {
    StepGrows(s, a);
  }

  /** Cancel and detach reach a run through its `byGUID` entry. It has one exactly if it registered,
      and no other run of its volume registered or unregistered since. */
  lemma {:induction false} NamedExactlyWhen(maxJobs: nat, log: seq<Action>, g: GoId)
    requires Legal(Start(maxJobs), log)
    ensures Named(Run(Start(maxJobs), log), g) <==> Kept(maxJobs, log, g)
  {
    if log != [] {
      var before, a := log[..|log| - 1], log[|log| - 1];
      var s := Run(Start(maxJobs), before);
      NamedExactlyWhen(maxJobs, before, g);
      StartOk(maxJobs);
      RunKeeps(Start(maxJobs), before);
      RunKeeps(Start(maxJobs), log);
      StepNames(s, a, g);
    }
  }

  lemma StepNames(s: State, a: Action, g: GoId)
    requires Inv(s) && Enabled(s, a) && ByGUIDOk(Step(s, a))
    ensures Named(Step(s, a), g) <==> a == Register(g) || (Named(s, g) && !Displaces(s, a, g))
  {
    if a.Register? {
      NamedIsEntered(s, g);
      NamedIsEntered(DoRegister(s, a.go), g);
      RegisterEnters(s, a.go, g);
    } else if a.Unregister? {
      NamedIsEntered(s, g);
      NamedIsEntered(DoUnregister(s, a.go), g);
      UnregisterEnters(s, a.go, g);
    } else {
      OthersEnter(s, a, g);
    }
  }

  /** The job awaits a decision, is blocked, or runs in a goroutine that has registered, with no other run of
      its volume registering or unregistering since. */
  ghost predicate Seen(maxJobs: nat, log: seq<Action>, j: JobId)
    requires Legal(Start(maxJobs), log)
  {
    var s := Run(Start(maxJobs), log);
    || (exists x :: Owns(s, Awaits(x), j)) || Owns(s, Blocks, j)
    || (exists g :: Owns(s, Runs(g), j) && Kept(maxJobs, log, g))
  }

  /** Cancel finds exactly the jobs in these places. */
  lemma CancelFindsExactlyWhen(maxJobs: nat, log: seq<Action>, j: JobId)
    requires Legal(Start(maxJobs), log)
    ensures !IsFound(Run(Start(maxJobs), log).t, j, NotActive) <==> Seen(maxJobs, log, j)
  {
    var s := Run(Start(maxJobs), log);
    assert Reachable(s);
    CancelFindsNamed(s, j);
    if g :| Owns(s, Runs(g), j) && Named(s, g) {
      NamedExactlyWhen(maxJobs, log, g);
    }
    if g :| Owns(s, Runs(g), j) && Kept(maxJobs, log, g) {
      NamedExactlyWhen(maxJobs, log, g);
    }
  }

  /** A detach cancels the run that keeps the volume's entry, and no other: none if there is none. */
  lemma DetachFindsExactlyWhen(maxJobs: nat, log: seq<Action>, x: Guid, g: GoId)
    requires Legal(Start(maxJobs), log)
    ensures var s := Run(Start(maxJobs), log);
      (x in s.t.byGUID && s.t.byGUID[x].go == g) <==> Kept(maxJobs, log, g) && g in s.gos && s.gos[g].q.guid == x
  {
    NamedExactlyWhen(maxJobs, log, g);
    StartOk(maxJobs);
    RunKeeps(Start(maxJobs), log);
    NamedIsEntered(Run(Start(maxJobs), log), g);
  }

  // ---- volumes and their jobs -------------------------------------------------------------

  predicate Knows(s: State, q: QueuedJob) {
    q.job in s.vol && s.vol[q.job] == q.guid
  }

  /** Whoever holds a job has its volume right. */
  predicate VolOk(s: State) {
    && (forall j :: j in s.vol ==> j < s.nextJob)
    && (forall x :: x in s.t.awaiting ==> Knows(s, s.t.awaiting[x]))
    && (forall j :: j in s.t.blocked ==> Knows(s, s.t.blocked[j]))
    && (forall g :: g in s.gos ==> Knows(s, s.gos[g].q))
    && (s.loop.Asking? || s.loop.Deciding? || s.loop.Admitting? ==> Knows(s, s.loop.q))
    && AllKnown(s, s.loop.Todo())
  }

  predicate AllKnown(s: State, todo: seq<QueuedJob>) {
    forall i :: 0 <= i < |todo| ==> Knows(s, todo[i])
  }

  lemma VolFire(s: State, g: GoId, cause: Cause)
    requires VolOk(s)
    ensures VolOk(s.(gos := Fire(s.gos, g, cause)))
  {
  }

  lemma VolTakes(s: State, j: JobId, x: Serial, q: QueuedJob)
    requires VolOk(s)
    ensures VolOk(LoopTakesBlocked(s, j)) && VolOk(LoopTakesAwaiting(s, x, q))
  {
  }

  lemma VolCancels(s: State, j: JobId, x: Serial)
    requires VolOk(s)
    ensures VolOk(CancelBlocked(s, j)) && VolOk(CancelAwaiting(s, j, x))
  {
  }

  lemma VolCreate(s: State, guid: Guid, serial: Serial, ask: bool)
    requires VolOk(s)
    ensures VolOk(DoCreate(s, guid, serial, ask))
  {
  }

  lemma VolFile(s: State, q: QueuedJob)
    requires VolOk(s) && Knows(s, q)
    ensures VolOk(DoFileQuestion(s, q))
  {
  }

  lemma VolDecide(s: State, q: QueuedJob, x: Serial)
    requires VolOk(s) && Knows(s, q)
    ensures VolOk(DoDecideCopy(s, x, q))
  {
  }

  lemma VolDecideWrite(s: State, q: QueuedJob)
    requires VolOk(s) && Knows(s, q)
    ensures VolOk(DoDecideWrite(s, q))
  {
  }

  lemma VolDetach(s: State, guid: Guid, b: Option<JobId>, a: Option<Serial>)
    requires VolOk(s)
    ensures VolOk(DoDetach(s, guid, b, a))
  {
    var s1 := if guid in s.t.byGUID then s.(gos := Fire(s.gos, s.t.byGUID[guid].go, CardRemoved)) else s;
    if guid in s.t.byGUID {
      VolFire(s, s.t.byGUID[guid].go, CardRemoved);
    }
    var s2 := if b.Some? then LoopTakesBlocked(s1, b.value) else s1;
    if b.Some? {
      VolTakes(s1, b.value, "", QueuedJob(0, "", ""));
    }
    if a.Some? && a.value in s2.t.awaiting {
      VolTakes(s2, 0, a.value, s2.t.awaiting[a.value]);
    }
  }

  lemma VolAsks(s: State, a: Action)
    requires VolOk(s) && Enabled(s, a) && AsksOrSettles(a)
    ensures VolOk(Step(s, a))
  {
    match a
    case Create(guid, serial, ask) => VolCreate(s, guid, serial, ask);
    case FileQuestion => VolFile(s, s.loop.q);
    case Decide(x, _) =>
      VolDecide(s, s.t.awaiting[x], x);
      VolTakes(s, 0, x, s.t.awaiting[x]);
    case DecideWrite => VolDecideWrite(s, s.loop.q);
    case Detach(guid, b, x) => VolDetach(s, guid, b, x);
    case _ =>
  }

  lemma VolAdmit(s: State, q: QueuedJob, rest: seq<QueuedJob>)
    requires VolOk(s) && s.loop == Admitting(q, rest)
    ensures VolOk(DoAdmit(s, q, rest))
  {
    assert rest == s.loop.Todo();
  }

  lemma VolProbe(s: State, order: seq<QueuedJob>)
    requires VolOk(s) && Lists(order, s.t.blocked)
    ensures VolOk(s.(loop := Probing(order)))
  {
    forall i | 0 <= i < |order| ensures Knows(s, order[i]) {
      assert s.t.blocked[order[i].job] == order[i];
    }
  }

  lemma VolRetry(s: State)
    requires VolOk(s) && s.loop.Retrying? && s.loop.todo != []
    ensures VolOk(DoRetryNext(s, s.loop.todo[0], s.loop.todo[1..]))
  {
    var todo := s.loop.Todo();
    assert Knows(s, todo[0]);
    forall i | 0 <= i < |todo[1..]| ensures Knows(s, todo[1..][i]) {
      assert todo[1..][i] == todo[i + 1];
    }
  }

  lemma VolAdmits(s: State, a: Action)
    requires VolOk(s) && Enabled(s, a) && AdmitsOrRetries(a)
    ensures VolOk(Step(s, a))
  {
    match a
    case Admit => VolAdmit(s, s.loop.q, s.loop.rest);
    case Probe(order) => VolProbe(s, order);
    case RetryNext => VolRetry(s);
    case ProbeFails =>
    case ProbeWorks => assert Step(s, a).loop.Todo() == s.loop.Todo();
    case RetryDone =>
  }

  lemma VolOutside(s: State, a: Action)
    requires VolOk(s) && Enabled(s, a) && ComesFromOutside(a)
    ensures VolOk(Step(s, a))
  {
    match a
    case Cancel(j, AsRunning(g)) => VolFire(s, g, UserCancelled);
    case Cancel(j, AsBlocked) => VolCancels(s, j, "");
    case Cancel(j, AsAwaiting(x)) => VolCancels(s, j, x);
    case _ =>
  }

  lemma VolRun(s: State, g: GoId, status: Status, topic: Topic, stage: Stage)
    requires VolOk(s) && g in s.gos
    ensures VolOk(RunStep(s, g, status, topic, stage))
  {
  }

  lemma VolStage(s: State, g: GoId, stage: Stage)
    requires VolOk(s) && g in s.gos
    ensures VolOk(SetStage(s, g, stage))
  {
  }

  lemma VolRegister(s: State, g: GoId)
    requires VolOk(s) && g in s.gos
    ensures VolOk(DoRegister(s, g))
  {
  }

  lemma VolQuit(s: State, g: GoId)
    requires VolOk(s) && g in s.gos
    ensures VolOk(DoQuit(s, g))
  {
  }

  lemma VolUnregister(s: State, g: GoId)
    requires VolOk(s) && g in s.gos && s.gos[g].stage.Returned?
    ensures VolOk(DoUnregister(s, g))
  {
  }

  lemma VolRunners(s: State, a: Action)
    requires VolOk(s) && Enabled(s, a) && IsRunners(a)
    ensures VolOk(Step(s, a))
  {
    match a
    case Acquire(g) => VolStage(s, g, Admitted);
    case Runner(g, status, topic, stage) => VolRun(s, g, status, topic, stage);
    case Register(g) => VolRegister(s, g);
    case Quit(g) => VolQuit(s, g);
    case Unregister(g) => VolUnregister(s, g);
    case Release(_) =>
  }

  lemma {:induction false} VolKept(maxJobs: nat, log: seq<Action>)
    requires Legal(Start(maxJobs), log)
    ensures VolOk(Run(Start(maxJobs), log))
  {
    if log != [] {
      var before, a := log[..|log| - 1], log[|log| - 1];
      VolKept(maxJobs, before);
      VolStep(Run(Start(maxJobs), before), a);
    }
  }

  lemma VolStep(s: State, a: Action)
    requires VolOk(s) && Enabled(s, a)
    ensures VolOk(Step(s, a))
  {
    if AsksOrSettles(a) {
      VolAsks(s, a);
    } else if AdmitsOrRetries(a) {
      VolAdmits(s, a);
    } else if ComesFromOutside(a) {
      VolOutside(s, a);
    } else {
      VolRunners(s, a);
    }
  }

  /** The job is not over for good: somebody has it, if only a Cancel call. */
  predicate Live(s: State, j: JobId) {
    j in s.at && !s.at[j].Gone?
  }

  lemma LiveTakes(s: State, i: JobId, x: Serial, q: QueuedJob, j: JobId)
    requires Live(s, i) && Live(s, q.job)
    ensures Live(LoopTakesBlocked(s, i), j) || Live(LoopTakesAwaiting(s, x, q), j) || Live(DoDecideCopy(s, x, q), j) ==>
              Live(s, j)
  {
  }

  lemma LiveDetach(s: State, guid: Guid, b: Option<JobId>, a: Option<Serial>, j: JobId)
    requires AwaitingOk(s) && (b.Some? ==> Live(s, b.value)) && Live(DoDetach(s, guid, b, a), j)
    ensures Live(s, j)
  {
  }

  lemma LiveFiles(s: State, q: QueuedJob, j: JobId)
    requires Live(s, q.job) && Live(DoFileQuestion(s, q), j)
    ensures Live(s, j)
  {
  }

  lemma LiveAsks(s: State, a: Action, j: JobId)
    requires AwaitingOk(s) && BlockedOk(s) && LoopOk(s) && Enabled(s, a) && AsksOrSettles(a) && Live(Step(s, a), j)
    ensures Live(s, j) || (a.Create? && j == s.nextJob)
  {
    match a
    case FileQuestion =>
      assert s.loop.Holds(s.loop.q.job);
      LiveFiles(s, s.loop.q, j);
    case Detach(guid, b, x) => LiveDetach(s, guid, b, x, j);
    case Decide(x, _) => LiveTakes(s, s.t.awaiting[x].job, x, s.t.awaiting[x], j);
    case _ =>
  }

  lemma LiveAdmits(s: State, a: Action, j: JobId)
    requires LoopOk(s) && TodoOk(s) && Enabled(s, a) && AdmitsOrRetries(a) && Live(Step(s, a), j)
    ensures Live(s, j)
  {
    if a.Admit? {
      assert s.loop.Holds(s.loop.q.job);
    } else if a.RetryNext? {
      assert StillListed(s, s.loop.Todo()[0]);
    }
  }

  lemma LiveOutside(s: State, a: Action, j: JobId)
    requires AwaitingOk(s) && BlockedOk(s) && Enabled(s, a) && ComesFromOutside(a) && Live(Step(s, a), j)
    ensures Live(s, j)
  {
  }

  lemma LiveRunners(s: State, a: Action, j: JobId)
    requires GosOk(s) && Enabled(s, a) && IsRunners(a) && Live(Step(s, a), j)
    ensures Live(s, j)
  {
  }

  lemma LiveStep(s: State, a: Action, j: JobId)
    requires Inv(s) && Enabled(s, a) && Live(Step(s, a), j)
    ensures Live(s, j) || (a.Create? && j == s.nextJob)
  {
    if AsksOrSettles(a) {
      LiveAsks(s, a, j);
    } else if AdmitsOrRetries(a) {
      LiveAdmits(s, a, j);
    } else if ComesFromOutside(a) {
      LiveOutside(s, a, j);
    } else {
      LiveRunners(s, a, j);
    }
  }

  predicate Open(s: State, j: JobId) {
    j in s.rows && !s.rows[j].Terminal()
  }

  lemma AskingOpens(s: State, a: Action, j: JobId)
    requires LoopOk(s) && Enabled(s, a) && AsksOrSettles(a) && !a.Detach? && Open(Step(s, a), j)
    ensures Open(s, j) || Live(s, j) || (a.Create? && j == s.nextJob)
  {
    match a
    case Settle => assert s.loop.now.status.Terminal();
    case DecideWrite => assert s.loop.Holds(s.loop.q.job);
    case _ =>
  }

  lemma OpensOnlyLive(s: State, a: Action, j: JobId)
    requires LoopOk(s) && GosOk(s) && Enabled(s, a) && Open(Step(s, a), j)
    ensures Open(s, j) || Live(s, j) || (a.Create? && j == s.nextJob)
  {
    if a.Detach? {
      DetachWritesNothing(s, a.guid, a.b, a.a);
    } else if AsksOrSettles(a) {
      AskingOpens(s, a, j);
    } else if a.Runner? {
      assert s.gos[a.go].HoldsJob();
    }
  }

  // ---- two jobs of one volume -------------------------------------------------------------

  predicate OfVolume(s: State, x: Guid, j: JobId) {
    j in s.vol && s.vol[j] == x
  }

  /** A job of the volume whose row is open, or that somebody still has. */
  predicate Busy(s: State, x: Guid, j: JobId) {
    OfVolume(s, x, j) && (Open(s, j) || Live(s, j))
  }

  /** A volume counts as tracked exactly if one of its jobs is in a place where Cancel finds it. */
  lemma TrackedExactlyWhen(maxJobs: nat, log: seq<Action>, x: Guid)
    requires Legal(Start(maxJobs), log)
    ensures var s := Run(Start(maxJobs), log);
      Tracked(s.t, x) <==> exists j :: OfVolume(s, x, j) && Seen(maxJobs, log, j)
  {
    var s := Run(Start(maxJobs), log);
    StartOk(maxJobs);
    RunKeeps(Start(maxJobs), log);
    VolKept(maxJobs, log);
    if Tracked(s.t, x) {
      var j := TrackedHas(s, x);
      CancelFindsExactlyWhen(maxJobs, log, j);
    }
    if j :| OfVolume(s, x, j) && Seen(maxJobs, log, j) {
      CancelFindsExactlyWhen(maxJobs, log, j);
      FoundIsTracked(s, j);
    }
  }

  lemma TrackedHas(s: State, x: Guid) returns (j: JobId)
    requires VolOk(s) && Filed(s) && ByGUIDOk(s) && Tracked(s.t, x)
    ensures OfVolume(s, x, j) && !IsFound(s.t, j, NotActive)
  {
    if x in s.t.byGUID {
      j := s.t.byGUID[x].job;
      assert Knows(s, s.gos[s.t.byGUID[x].go].q);
    } else if b :| b in s.t.blocked && s.t.blocked[b].guid == x {
      j := b;
      assert Knows(s, s.t.blocked[b]);
    } else {
      var a :| a in s.t.awaiting && s.t.awaiting[a].guid == x;
      j := s.t.awaiting[a].job;
    }
  }

  lemma FoundIsTracked(s: State, j: JobId)
    requires VolOk(s) && Filed(s) && ByGUIDOk(s) && j in s.vol && !IsFound(s.t, j, NotActive)
    ensures Tracked(s.t, s.vol[j])
  {
    if !NotRunning(s.t, j) {
      var y :| y in s.t.byGUID && s.t.byGUID[y].job == j;
      assert Knows(s, s.gos[s.t.byGUID[y].go].q);
    } else if j in s.t.blocked {
      assert Knows(s, s.t.blocked[j]);
    } else {
      var a :| a in s.t.awaiting && s.t.awaiting[a].job == j;
      assert Knows(s, s.t.awaiting[a]);
    }
  }

  /** The volume is given a job while it has one. */
  ghost predicate GivesSecond(s: State, a: Action, x: Guid) {
    a.Create? && a.guid == x && exists j :: Busy(s, x, j)
  }

  ghost predicate Two(s: State, x: Guid) {
    exists i, j :: i != j && Busy(s, x, i) && Busy(s, x, j)
  }

  /** Two jobs of the volume were open or with somebody at one moment. */
  ghost predicate EverTwo(maxJobs: nat, log: seq<Action>, x: Guid)
    requires Legal(Start(maxJobs), log)
  {
    Two(Run(Start(maxJobs), log), x) || (log != [] && EverTwo(maxJobs, log[..|log| - 1], x))
  }

  ghost predicate SomeSecond(maxJobs: nat, log: seq<Action>, x: Guid)
    requires Legal(Start(maxJobs), log)
  {
    log != [] &&
    (SomeSecond(maxJobs, log[..|log| - 1], x)
     || GivesSecond(Run(Start(maxJobs), log[..|log| - 1]), log[|log| - 1], x))
  }

  lemma StepBusy(s: State, a: Action, x: Guid, j: JobId)
    requires Inv(s) && Enabled(s, a) && Busy(Step(s, a), x, j)
    ensures Busy(s, x, j) || (a.Create? && a.guid == x && j == s.nextJob)
  {
    StepGrows(s, a);
    if Live(Step(s, a), j) {
      LiveStep(s, a, j);
    } else {
      OpensOnlyLive(s, a, j);
    }
  }

  lemma SecondMakesTwo(s: State, a: Action, x: Guid)
    requires VolOk(s) && Enabled(s, a) && GivesSecond(s, a, x)
    ensures Two(Step(s, a), x)
  {
    var t := Step(s, a);
    var j :| Busy(s, x, j);
    assert j != s.nextJob && Busy(t, x, j);
    assert Busy(t, x, s.nextJob);
  }

  /** A volume comes to have two jobs exactly if it is given one while it has one. */
  lemma {:induction false} TwoExactlyWhen(maxJobs: nat, log: seq<Action>, x: Guid)
    requires Legal(Start(maxJobs), log)
    ensures EverTwo(maxJobs, log, x) <==> SomeSecond(maxJobs, log, x)
  {
    if log != [] {
      var before, a := log[..|log| - 1], log[|log| - 1];
      var s, t := Run(Start(maxJobs), before), Run(Start(maxJobs), log);
      TwoExactlyWhen(maxJobs, before, x);
      StartOk(maxJobs);
      RunKeeps(Start(maxJobs), before);
      VolKept(maxJobs, before);
      if i, j :| i != j && Busy(t, x, i) && Busy(t, x, j) {
        StepBusy(s, a, x, i);
        StepBusy(s, a, x, j);
        assert GivesSecond(s, a, x) || Two(s, x);
      }
      if GivesSecond(s, a, x) {
        SecondMakesTwo(s, a, x);
      }
    }
  }

  /** The job is there, and neither Cancel nor the guard against a second job sees it: it is with a goroutine that has
      not registered or lost its entry, a Cancel call still has to write its row, or it was lost. */
  ghost predicate Hidden(maxJobs: nat, log: seq<Action>, x: Guid, j: JobId)
    requires Legal(Start(maxJobs), log)
  {
    var s := Run(Start(maxJobs), log);
    && Busy(s, x, j)
    && ((exists g :: Owns(s, Runs(g), j) && !Kept(maxJobs, log, g))
        || j in s.finishing || j in s.displaced || j in s.abandoned)
  }

  /** The loop took the volume for untracked while it had a job. */
  ghost predicate SomeBlindLook(maxJobs: nat, log: seq<Action>, x: Guid)
    requires Legal(Start(maxJobs), log)
  {
    log != [] &&
    (var before, a := log[..|log| - 1], log[|log| - 1];
     SomeBlindLook(maxJobs, before, x) || (a.Look? && a.guid == x && exists j :: Hidden(maxJobs, before, x, j)))
  }

  lemma UntrackedHides(maxJobs: nat, log: seq<Action>, x: Guid, j: JobId)
    requires Legal(Start(maxJobs), log)
    requires var s := Run(Start(maxJobs), log); s.loop.Idle? && !Tracked(s.t, x) && Busy(s, x, j)
    ensures Hidden(maxJobs, log, x, j)
  {
    var s := Run(Start(maxJobs), log);
    TrackedExactlyWhen(maxJobs, log, x);
    StartOk(maxJobs);
    RunKeeps(Start(maxJobs), log);
    assert JobOk(s, j);
    PlaceIsOwner(s, j);
    assert !Seen(maxJobs, log, j);
  }

  lemma AttachingSince(s: State, a: Action)
    requires Enabled(s, a) && Step(s, a).loop.Attaching?
    ensures a == Look(Step(s, a).loop.guid, Step(s, a).loop.serial) || s.loop == Step(s, a).loop
  {
    if AsksOrSettles(a) {
      AsksOrSettlesAttaching(s, a);
    } else if AdmitsOrRetries(a) {
      AdmitsOrRetriesAttaching(s, a);
    }
  }

  lemma AsksOrSettlesAttaching(s: State, a: Action)
    requires Enabled(s, a) && AsksOrSettles(a) && Step(s, a).loop.Attaching?
    ensures a == Look(Step(s, a).loop.guid, Step(s, a).loop.serial)
  {
    if a.Detach? {
      DetachLoop(s, a.guid, a.b, a.a);
    }
  }

  lemma DetachLoop(s: State, guid: Guid, b: Option<JobId>, a: Option<Serial>)
    ensures var t := DoDetach(s, guid, b, a); t.loop == s.loop || t.loop.Closing?
  {
  }

  lemma AdmitsOrRetriesAttaching(s: State, a: Action)
    requires Enabled(s, a) && AdmitsOrRetries(a)
    ensures !Step(s, a).loop.Attaching?
  {
  }

  lemma {:induction false} AttachingIsBlind(maxJobs: nat, log: seq<Action>, x: Guid, j: JobId)
    requires Legal(Start(maxJobs), log)
    requires var s := Run(Start(maxJobs), log); s.loop.Attaching? && s.loop.guid == x && Busy(s, x, j)
    ensures SomeBlindLook(maxJobs, log, x)
  {
    if log != [] {
      var before, a := log[..|log| - 1], log[|log| - 1];
      var s := Run(Start(maxJobs), before);
      StartOk(maxJobs);
      RunKeeps(Start(maxJobs), before);
      AttachingSince(s, a);
      StepBusy(s, a, x, j);
      if a.Look? {
        UntrackedHides(maxJobs, before, x, j);
      } else {
        AttachingIsBlind(maxJobs, before, x, j);
      }
    }
  }

  /** And that takes a look at the maps that missed a job of the volume. */
  lemma {:induction false} SecondNeedsBlindLook(maxJobs: nat, log: seq<Action>, x: Guid)
    requires Legal(Start(maxJobs), log) && EverTwo(maxJobs, log, x)
    ensures SomeBlindLook(maxJobs, log, x)
  {
    TwoExactlyWhen(maxJobs, log, x);
    SecondIsBlind(maxJobs, log, x);
  }

  lemma {:induction false} SecondIsBlind(maxJobs: nat, log: seq<Action>, x: Guid)
    requires Legal(Start(maxJobs), log) && SomeSecond(maxJobs, log, x)
    ensures SomeBlindLook(maxJobs, log, x)
  {
    var before, a := log[..|log| - 1], log[|log| - 1];
    if SomeSecond(maxJobs, before, x) {
      SecondIsBlind(maxJobs, before, x);
    } else {
      var j :| Busy(Run(Start(maxJobs), before), x, j);
      AttachingIsBlind(maxJobs, before, x, j);
    }
  }
}
