/** What holds in every run of the job manager: who owns a job, how many run, how rows and events
    move. Each law that the manager keeps only conditionally comes with its exact condition. */
module ManagerTheorems {
  import opened Jobs
  import opened ManagerTables
  import opened JobEvents
  import opened ManagerProtocol
  import opened ManagerSteps
  import opened ManagerRuns

  /** Every action of the log is enabled where it is taken. */
  predicate Legal(s: State, log: seq<Action>)
    decreases |log|, 0
  {
    log == [] || (Legal(s, log[..|log| - 1]) && Enabled(Run(s, log[..|log| - 1]), log[|log| - 1]))
  }

  function Run(s: State, log: seq<Action>): State
    requires Legal(s, log)
    decreases |log|, 1
  {
    if log == [] then s else Step(Run(s, log[..|log| - 1]), log[|log| - 1])
  }

  lemma StepGrows(s: State, a: Action)
    requires Inv(s) && Enabled(s, a)
    ensures Grows(s, a, Step(s, a)) && PastOk(Step(s, a))
  {
    if a.Detach? || a.Settle? {
      SettlesGrows(s, a);
    } else if a.Decide? || a.DecideWrite? {
      DecidesGrows(s, a);
    } else if a.Look? || a.Ignore? || a.Create? || a.FileQuestion? {
      AsksGrows(s, a);
    } else if AdmitsOrRetries(a) {
      AdmitsOrRetriesGrows(s, a);
    } else if ComesFromOutside(a) {
      OutsideGrows(s, a);
    } else {
      RunnersGrow(s, a);
    }
  }

  lemma StepHolders(s: State, a: Action)
    requires Enabled(s, a) && |Holders(s)| <= s.maxJobs
    ensures |Holders(Step(s, a))| <= s.maxJobs
  {
    if a.Acquire? {
      OneMoreHolder(s, a.go);
    } else {
      if AsksOrSettles(a) {
        AsksOrSettlesSlots(s, a);
      } else if AdmitsOrRetries(a) {
        AdmitsOrRetriesSlots(s, a);
      } else if ComesFromOutside(a) {
        OutsideSlots(s, a);
      } else {
        RunnersSlots(s, a);
      }
      NoMoreHolders(s, Step(s, a));
    }
  }

  lemma StepKeeps(s: State, a: Action)
    requires Inv(s) && Enabled(s, a)
    ensures Inv(Step(s, a)) && Grows(s, a, Step(s, a))
  {
    StepGrows(s, a);
    StepHolders(s, a);
    if AsksOrSettles(a) {
      AsksOrSettlesKeeps(s, a);
    } else if AdmitsOrRetries(a) {
      AdmitsOrRetriesKeeps(s, a);
    } else if ComesFromOutside(a) {
      OutsideKeeps(s, a);
    } else {
      RunnersKeep(s, a);
    }
  }

  lemma NoMoreHolders(s: State, t: State)
    requires SlotsKept(s, t)
    ensures |Holders(t)| <= |Holders(s)|
  {
    assert Holders(t) <= Holders(s);
    assert Holders(s) == Holders(t) + (Holders(s) - Holders(t));
  }

  lemma OneMoreHolder(s: State, g: GoId)
    requires InStage(s, g, Queueing)
    ensures |Holders(SetStage(s, g, Admitted))| == |Holders(s)| + 1
  {
    assert Holders(SetStage(s, g, Admitted)) == Holders(s) + {g};
  }

  lemma {:induction false} RunKeeps(s: State, log: seq<Action>)
    requires Inv(s) && Legal(s, log)
    ensures Inv(Run(s, log)) && Run(s, log).maxJobs == s.maxJobs
  {
    if log != [] {
      var before := log[..|log| - 1];
      RunKeeps(s, before);
      StepKeeps(Run(s, before), log[|log| - 1]);
    }
  }

  lemma StartOk(maxJobs: nat)
    ensures Inv(Start(maxJobs))
  {
    assert Holders(Start(maxJobs)) == {};
  }

  /** The states the manager can be in. */
  ghost predicate Reachable(s: State) {
    exists maxJobs: nat, log: seq<Action> :: Legal(Start(maxJobs), log) && s == Run(Start(maxJobs), log)
  }

  lemma ReachableOk(s: State)
    requires Reachable(s)
    ensures Inv(s)
  {
    var maxJobs: nat, log: seq<Action> :| Legal(Start(maxJobs), log) && s == Run(Start(maxJobs), log);
    StartOk(maxJobs);
    RunKeeps(Start(maxJobs), log);
  }

  // ---- ownership --------------------------------------------------------------------------

  /** Read off the maps, the goroutines and the loop: `p` has the job. */
  ghost predicate Owns(s: State, p: Place, j: JobId) {
    match p
    case Awaits(x) => x in s.t.awaiting && s.t.awaiting[x].job == j
    case Blocks => j in s.t.blocked
    case Runs(g) => g in s.gos && s.gos[g].HoldsJob() && s.gos[g].q.job == j
    case WithLoop => s.loop.Holds(j)
    case WithCancel => j in s.finishing
    case _ => false
  }

  lemma OwnerIsPlace(s: State, j: JobId, p: Place)
    requires Places(s) && Owns(s, p, j)
    ensures j in s.at && (s.at[j] == p || p.WithCancel?)
    ensures p.WithCancel? && j !in s.revived ==> s.at[j].WithCancel? || s.at[j].Listed?
  {
  }

  lemma PlaceIsOwner(s: State, j: JobId)
    requires Places(s) && j in s.at
    ensures Owns(s, s.at[j], j) || s.at[j].Gone? || (s.at[j].Listed? && InTodo(s.loop.Todo(), j))
  {
  }

  /** A job is in one place: under one serial in `awaiting`, or in `blocked`, or with one goroutine,
      or with the loop. A Cancel call that took it out is then the only one to have it, unless the
      manager admitted it again all the same. */
  lemma OneOwner(s: State, j: JobId, p: Place, o: Place)
    requires Reachable(s) && Owns(s, p, j) && Owns(s, o, j)
    requires j !in s.revived || (!p.WithCancel? && !o.WithCancel?)
    ensures p == o
  {
    ReachableOk(s);
    OwnerIsPlace(s, j, p);
    OwnerIsPlace(s, j, o);
  }

  lemma LiveRuns(s: State, x: Guid)
    requires GosOk(s) && ByGUIDOk(s) && x in s.t.byGUID
    ensures var r := s.t.byGUID[x];
      Owns(s, Runs(r.go), r.job) && s.gos[r.go].q.guid == x && r.go in Holders(s) && |Holders(s)| > 0
  {
    assert s.t.byGUID[x].go in Holders(s);
    assert Holders(s) != {};
  }

  /** A `byGUID` entry is a live, registered runner of that very volume and job, and no more than
      `maxJobs` goroutines are past the semaphore. */
  lemma RegisteredRunsAreLive(s: State, x: Guid)
    requires Reachable(s) && x in s.t.byGUID
    ensures var r := s.t.byGUID[x];
      && Owns(s, Runs(r.go), r.job) && s.gos[r.go].q.guid == x
      && r.go in Holders(s) && 1 <= |Holders(s)| <= s.maxJobs
  {
    ReachableOk(s);
    LiveRuns(s, x);
  }

  /** Nobody will ever write the job's row again. */
  ghost predicate Settled(s: State, j: JobId) {
    (forall p :: !Owns(s, p, j)) && !InTodo(s.loop.Todo(), j)
  }

  lemma GoneIsSettled(s: State, j: JobId)
    requires Places(s) && j in s.at && s.at[j].Gone? && j !in s.finishing
    ensures Settled(s, j)
  {
    forall p ensures !Owns(s, p, j) {
      if Owns(s, p, j) {
        OwnerIsPlace(s, j, p);
      }
    }
  }

  lemma SettledIsGone(s: State, j: JobId)
    requires Places(s) && j in s.at && Settled(s, j)
    ensures s.at[j].Gone? && j !in s.finishing
  {
    PlaceIsOwner(s, j);
    assert !Owns(s, WithCancel, j);
  }

  /** Until shutdown, an open job is left without an owner exactly when its question was
      overwritten. */
  lemma OpenJobsAreOwned(s: State, j: JobId)
    requires Reachable(s) && !s.down && j in s.rows
    ensures !s.rows[j].Terminal() && Settled(s, j) <==> j in s.displaced
  {
    ReachableOk(s);
    assert JobOk(s, j);
    if j in s.displaced {
      GoneIsSettled(s, j);
    } else if Settled(s, j) {
      SettledIsGone(s, j);
    }
  }

  /** A `byGUID` entry names the goroutine. */
  ghost predicate Named(s: State, g: GoId) {
    exists x :: x in s.t.byGUID && s.t.byGUID[x].go == g
  }

  /** Cancel finds a job exactly if it awaits a decision, is blocked, or runs in a goroutine that a
      `byGUID` entry names. */
  lemma CancelFindsNamed(s: State, j: JobId)
    requires Reachable(s)
    ensures !IsFound(s.t, j, NotActive) <==>
              || (exists x :: Owns(s, Awaits(x), j)) || Owns(s, Blocks, j)
              || (exists g :: Owns(s, Runs(g), j) && Named(s, g))
  {
    ReachableOk(s);
    if !NotRunning(s.t, j) {
      var x :| x in s.t.byGUID && s.t.byGUID[x].job == j;
      LiveRuns(s, x);
      assert Named(s, s.t.byGUID[x].go);
    }
    if g :| Owns(s, Runs(g), j) && Named(s, g) {
      NamedIsRunning(s, g);
    }
    if x :| x in s.t.awaiting && s.t.awaiting[x].job == j {
      assert Owns(s, Awaits(x), j);
    }
  }

  lemma NamedIsRunning(s: State, g: GoId)
    requires ByGUIDOk(s) && g in s.gos && Named(s, g)
    ensures !NotRunning(s.t, s.gos[g].q.job)
  {
    var x :| x in s.t.byGUID && s.t.byGUID[x].go == g;
    assert s.t.byGUID[x].job == s.gos[g].q.job;
  }

  /** So a job whose goroutine waits for the semaphore, or has not registered yet, cannot be
      cancelled; and as far as it goes, its volume is free for another job. */
  lemma QueuedIsInvisible(s: State, g: GoId)
    requires Reachable(s) && (InStage(s, g, Queueing) || InStage(s, g, Admitted))
    ensures IsFound(s.t, s.gos[g].q.job, NotActive)
    ensures forall x :: x in s.t.byGUID ==> s.t.byGUID[x].job != s.gos[g].q.job
    ensures s.gos[g].q.job !in s.t.blocked
    ensures forall x :: x in s.t.awaiting ==> s.t.awaiting[x].job != s.gos[g].q.job
  {
    ReachableOk(s);
    var j := s.gos[g].q.job;
    assert Owns(s, Runs(g), j);
    OwnerIsPlace(s, j, Runs(g));
    forall x | x in s.t.byGUID ensures s.t.byGUID[x].job != j {
      LiveRuns(s, x);
      if s.t.byGUID[x].job == j {
        OwnerIsPlace(s, j, Runs(s.t.byGUID[x].go));
      }
    }
  }

  /** A question filed under a serial that has one already. */
  predicate Overwrites(s: State, a: Action) {
    a.FileQuestion? && s.loop.Asking? && s.loop.q.serial in s.t.awaiting
  }

  /** A job off the retry list is admitted again although it is no longer blocked. */
  predicate Revives(s: State, a: Action, j: JobId) {
    a.RetryNext? && s.loop.Retrying? && s.loop.todo != [] && s.loop.todo[0].job == j && j !in s.t.blocked
  }

  lemma FileDisplaces(s: State, q: QueuedJob)
    requires AwaitingOk(s) && (forall j :: j in s.displaced ==> j in s.at && s.at[j].Gone?)
    ensures q.serial in s.t.awaiting <==> DoFileQuestion(s, q).displaced != s.displaced
  {
    if q.serial in s.t.awaiting {
      assert s.t.awaiting[q.serial].job in DoFileQuestion(s, q).displaced;
    }
  }

  lemma StepDisplaces(s: State, a: Action)
    requires Inv(s) && Enabled(s, a)
    ensures Overwrites(s, a) <==> Step(s, a).displaced != s.displaced
  {
    StepKeeps(s, a);
    if a.FileQuestion? {
      forall j | j in s.displaced ensures j in s.at && s.at[j].Gone? {
        assert JobOk(s, j);
      }
      FileDisplaces(s, s.loop.q);
    }
  }

  lemma RetryRevives(s: State, q: QueuedJob, rest: seq<QueuedJob>, j: JobId)
    ensures j in DoRetryNext(s, q, rest).revived <==> j in s.revived || (q.job == j && j !in s.t.blocked)
  {
  }

  lemma StepRevives(s: State, a: Action, j: JobId)
    requires Inv(s) && Enabled(s, a)
    ensures j in Step(s, a).revived <==> j in s.revived || Revives(s, a, j)
  {
    if a.RetryNext? {
      RetryRevives(s, s.loop.todo[0], s.loop.todo[1..], j);
    } else {
      StepKeeps(s, a);
    }
  }

  /** Some question of the run was filed over another. */
  ghost predicate SomeOverwrites(s: State, log: seq<Action>)
    requires Legal(s, log)
  {
    log != [] &&
    (SomeOverwrites(s, log[..|log| - 1]) || Overwrites(Run(s, log[..|log| - 1]), log[|log| - 1]))
  }

  ghost predicate SomeRevives(s: State, log: seq<Action>, j: JobId)
    requires Legal(s, log)
  {
    log != [] &&
    (SomeRevives(s, log[..|log| - 1], j) || Revives(Run(s, log[..|log| - 1]), log[|log| - 1], j))
  }

  /** Jobs are lost exactly in the runs where two volumes with one serial were awaiting a decision
      at once. */
  lemma {:induction false} DisplacedExactlyWhen(maxJobs: nat, log: seq<Action>)
    requires Legal(Start(maxJobs), log)
    ensures Run(Start(maxJobs), log).displaced != {} <==> SomeOverwrites(Start(maxJobs), log)
  {
    if log != [] {
      var before := log[..|log| - 1];
      DisplacedExactlyWhen(maxJobs, before);
      StartOk(maxJobs);
      RunKeeps(Start(maxJobs), before);
      StepDisplaces(Run(Start(maxJobs), before), log[|log| - 1]);
    }
  }

  lemma {:induction false} RevivedExactlyWhen(maxJobs: nat, log: seq<Action>, j: JobId)
    requires Legal(Start(maxJobs), log)
    ensures j in Run(Start(maxJobs), log).revived <==> SomeRevives(Start(maxJobs), log, j)
  {
    if log != [] {
      var before := log[..|log| - 1];
      RevivedExactlyWhen(maxJobs, before, j);
      StartOk(maxJobs);
      RunKeeps(Start(maxJobs), before);
      StepRevives(Run(Start(maxJobs), before), log[|log| - 1], j);
    }
  }

  // ---- the status machine -----------------------------------------------------------------

  /** A job's row moves as the status machine says, and never to `Verifying`, unless the job was
      revived. */
  lemma RowsFollow(s: State, a: Action, j: JobId)
    requires Inv(s) && Enabled(s, a) && j in s.rows
    ensures var t := Step(s, a);
      && j in t.rows && !t.rows[j].Verifying?
      && (t.rows[j] == s.rows[j] || CanFollow(s.rows[j], t.rows[j]) || j in t.revived)
      && (j in s.revived ==> j in t.revived)
  {
    StepKeeps(s, a);
    assert JobOk(Step(s, a), j);
  }

  lemma OverStays(s: State, a: Action, j: JobId, r: Status)
    requires Inv(s) && Enabled(s, a) && j in s.rows && r.Terminal() && (j in s.revived || s.rows[j] == r)
    ensures var t := Step(s, a); j in t.rows && (j in t.revived || t.rows[j] == r)
  {
    RowsFollow(s, a, j);
  }

  /** A job that is over stays as it is, unless it was revived. */
  lemma {:induction false} TerminalStays(s: State, log: seq<Action>, j: JobId)
    requires Inv(s) && Legal(s, log) && j in s.rows && s.rows[j].Terminal()
    ensures j in Run(s, log).rows && (j in Run(s, log).revived || Run(s, log).rows[j] == s.rows[j])
  {
    if log != [] {
      var before := log[..|log| - 1];
      TerminalStays(s, before, j);
      RunKeeps(s, before);
      OverStays(Run(s, before), log[|log| - 1], j, s.rows[j]);
    }
  }

  /** The exact condition: once a job is settled (and was not given up at shutdown), its row broke
      the status machine if and only if the run revived it. */
  lemma BrokenExactlyWhen(maxJobs: nat, log: seq<Action>, j: JobId)
    requires Legal(Start(maxJobs), log)
    ensures var s := Run(Start(maxJobs), log);
      j in s.rows && Settled(s, j) && j !in s.abandoned ==>
        (j in s.bad <==> SomeRevives(Start(maxJobs), log, j))
  {
    var s := Run(Start(maxJobs), log);
    StartOk(maxJobs);
    RunKeeps(Start(maxJobs), log);
    RevivedExactlyWhen(maxJobs, log, j);
    if j in s.rows && Settled(s, j) {
      SettledIsGone(s, j);
      assert JobOk(s, j);
    }
  }

  // ---- a job's events ---------------------------------------------------------------------

  /** How many DestMissing events come first. */
  function Misses(ts: seq<Topic>): (n: nat)
    ensures n <= |ts|
  {
    if ts == [] || !ts[0].DestMissing? then 0 else 1 + Misses(ts[1..])
  }

  lemma {:induction false} MissesMore(ts: seq<Topic>, topic: Topic)
    ensures Misses(ts + [topic]) ==
      if Misses(ts) == |ts| && topic.DestMissing? then |ts| + 1 else Misses(ts)
  {
    if ts != [] && ts[0].DestMissing? {
      MissesMore(ts[1..], topic);
      assert (ts + [topic])[1..] == ts[1..] + [topic];
    }
  }

  /** All a job's events, over all its runs: any number of DestMissing, and then at most one run
      of another kind. */
  lemma {:induction false} LifeIsGrammar(ts: seq<Topic>)
    requires !Life(ts).Illegal?
    ensures var k, p := Misses(ts), Life(ts);
      && (p.Fresh? ==> ts == [])
      && (p.Waiting? ==> k == |ts| > 0)
      && (!p.Fresh? && !p.Waiting? ==> Grammar(ts[k..], p))
  {
    if ts != [] {
      var before, topic := ts[..|ts| - 1], ts[|ts| - 1];
      LifeIsGrammar(before);
      MissesMore(before, topic);
      assert ts == before + [topic];
      var k := Misses(before);
      if Life(before).Fresh? || Life(before).Waiting? {
        assert k == |before|;
        assert ts[k..] == [topic];
      } else {
        assert ts[k..] == before[k..] + [topic];
        assert ts[k..][..|ts[k..]| - 1] == before[k..];
      }
    }
  }

  /** No job's events are ever out of order. */
  lemma EventsInOrder(s: State, j: JobId)
    requires Reachable(s) && j in s.rows
    ensures j in s.told && !Life(s.told[j]).Illegal?
  {
    ReachableOk(s);
    assert JobOk(s, j);
  }

  /** The run's tracker and the job's agree on every effect. `base` is where the run found the job. */
  lemma TrackersAgree(base: RunPhase, t: Track, e: Effect)
    requires base.Fresh? || base.Waiting?
    requires !Follow(t, e).phase.Illegal?
    ensures var p, q := t.phase, Follow(t, e).phase;
      if e.Published? then LifeStep(if p.Fresh? then base else p, e.topic) == q && !q.Fresh? else q == p
  {
  }

  /** A run that its own tracker accepts takes the job's events to the same phase. */
  lemma {:induction false} RunFitsLife(ts: seq<Topic>, trace: seq<Effect>)
    requires Life(ts).Fresh? || Life(ts).Waiting?
    requires !FollowAll(RUN_START, trace).phase.Illegal?
    ensures var p := FollowAll(RUN_START, trace).phase;
      Life(ts + Topics(trace)) == if p.Fresh? then Life(ts) else p
  {
    if trace == [] {
      assert ts + Topics(trace) == ts;
    } else {
      var before, e := trace[..|trace| - 1], trace[|trace| - 1];
      var mid := ts + Topics(before);
      RunFitsLife(ts, before);
      TrackersAgree(Life(ts), FollowAll(RUN_START, before), e);
      if e.Published? {
        LifeMore(mid, e.topic);
        assert ts + Topics(trace) == mid + [e.topic];
      } else {
        assert ts + Topics(trace) == mid;
      }
    }
  }
}
