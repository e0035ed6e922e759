/** Runs of the job manager in which a law one might expect does not hold; the theorems say exactly
    when each holds. */
module Counterexamples {
  import opened Text
  import opened Jobs
  import opened ManagerTables
  import opened JobEvents
  import opened ManagerProtocol
  import opened ManagerTheorems
  import opened RetryWindow

  // ---- an accepted Cancel, and the job parks ----------------------------------------------

  function Doomed(stage: Stage): map<GoId, Go> {
    map[0 := Go(CARD, stage, Some(UserCancelled))]
  }

  const DOOMED := FIRST.(gos := Doomed(Planning))
  const DOOMED_MISSED := MISSED.(gos := Doomed(Returned(true)))
  const DOOMED_LEFT := LEFT.(gos := Doomed(Leaving))

  lemma IsDoomed(log: seq<Action>) returns (longer: seq<Action>)
    requires Leads(Start(1), log, FIRST)
    ensures Leads(Start(1), longer, DOOMED) && longer == log + [Cancel(1, AsRunning(0))]
  {
    assert FIRST.t.byGUID["volume"] == RunningJob(1, 0);
    longer := Then(Start(1), log, FIRST, Cancel(1, AsRunning(0)), DOOMED);
  }

  lemma MissesAllTheSame(log: seq<Action>) returns (longer: seq<Action>)
    requires Leads(Start(1), log, DOOMED)
    ensures Leads(Start(1), longer, DOOMED_MISSED) && log <= longer
  {
    assert DOOMED.told[1] + [DestMissing] == [DestMissing];
    longer := Then(Start(1), log, DOOMED, Runner(0, Pending, DestMissing, Returned(true)), DOOMED_MISSED);
  }

  lemma ParksAllTheSame(log: seq<Action>) returns (longer: seq<Action>)
    requires Leads(Start(1), log, DOOMED_MISSED)
    ensures Leads(Start(1), longer, DOOMED_LEFT) && log <= longer
  {
    longer := Then(Start(1), log, DOOMED_MISSED, Unregister(0), DOOMED_LEFT);
  }

  const BACK := LISTED.(loop := Retrying([CARD]))
  const AGAIN :=
    Scene(map[], map[], Pending, map[], Admitting(CARD, []), multiset{}, 1, WithLoop, [DestMissing], {})
  const AGAIN_QUEUED :=
    Scene(map[], map[], Pending, Alone(1, Queueing), Retrying([]), multiset{}, 2, Runs(1), [DestMissing], {})
  const AGAIN_HOLDING := AGAIN_QUEUED.(gos := Alone(1, Admitted))
  const AGAIN_RUNS := AGAIN_QUEUED.(gos := Alone(1, Planning), t := Tables(SECOND_RUN, map[], map[]))
  const AGAIN_COPIES :=
    AGAIN_RUNS.(gos := Alone(1, Ingesting), rows := map[1 := Copying], told := map[1 := [DestMissing, JobStarted]])

  lemma StaysParked(log: seq<Action>) returns (longer: seq<Action>)
    requires Leads(Start(1), log, DOOMED_LEFT)
    ensures Leads(Start(1), longer, PARKED) && log <= longer
  {
    longer := Then(Start(1), log, DOOMED_LEFT, Release(0), FREED);
    longer := Then(Start(1), longer, FREED, RetryDone, PARKED);
  }

  lemma FindsDestination(log: seq<Action>) returns (longer: seq<Action>)
    requires Leads(Start(1), log, PARKED)
    ensures Leads(Start(1), longer, BACK) && log <= longer
  {
    longer := Then(Start(1), log, PARKED, Probe([CARD]), LISTED);
    longer := Then(Start(1), longer, LISTED, ProbeWorks, BACK);
  }

  lemma IsRetried(log: seq<Action>) returns (longer: seq<Action>)
    requires Leads(Start(1), log, BACK)
    ensures Leads(Start(1), longer, AGAIN_QUEUED) && log <= longer
  {
    assert [CARD][1..] == [];
    longer := Then(Start(1), log, BACK, RetryNext, AGAIN);
    longer := Then(Start(1), longer, AGAIN, Admit, AGAIN_QUEUED);
  }

  lemma RunsAgain(log: seq<Action>) returns (longer: seq<Action>)
    requires Leads(Start(1), log, AGAIN_QUEUED)
    ensures Leads(Start(1), longer, AGAIN_RUNS) && log <= longer
  {
    assert Holders(AGAIN_QUEUED) == {};
    longer := Then(Start(1), log, AGAIN_QUEUED, Acquire(1), AGAIN_HOLDING);
    longer := Then(Start(1), longer, AGAIN_HOLDING, Register(1), AGAIN_RUNS);
  }

  lemma CopiesAgain(log: seq<Action>) returns (longer: seq<Action>)
    requires Leads(Start(1), log, AGAIN_RUNS)
    ensures Leads(Start(1), longer, AGAIN_COPIES) && log <= longer
  {
    assert AGAIN_RUNS.told[1] + [JobStarted] == [DestMissing, JobStarted];
    longer := Then(Start(1), log, AGAIN_RUNS, Runner(1, Copying, JobStarted, Ingesting), AGAIN_COPIES);
  }

  /** The user cancels a registered job before its run looks for the destination; the job is parked, pending, and
      retried, and copies. */
  lemma CancelledJobParks() returns (log: seq<Action>, at: nat, longer: seq<Action>)
    ensures Legal(Start(1), log) && at < |log| && log[at] == Cancel(1, AsRunning(0))
    ensures var s := Run(Start(1), log); s.rows == map[1 := Pending] && 1 in s.t.blocked
    ensures Legal(Start(1), longer) && log <= longer
    ensures var s := Run(Start(1), longer); s.rows == map[1 := Copying] && s.revived == {}
  {
    log := Queues([]);
    log := Registers(log);
    at := |log|;
    log := IsDoomed(log);
    var cancelled := log;
    log := MissesAllTheSame(log);
    log := ParksAllTheSame(log);
    assert log[at] == cancelled[at];
    longer := StaysParked(log);
    longer := FindsDestination(longer);
    longer := IsRetried(longer);
    longer := RunsAgain(longer);
    longer := CopiesAgain(longer);
  }

  // ---- a job in none of the maps ----------------------------------------------------------

  /** A second job for the volume while the first waits for the semaphore. */
  const TWIN := QueuedJob(2, "volume", "serial")
  const IDLE := QUEUED.(loop := Idle)
  const UNTRACKED := QUEUED.(loop := Attaching("volume", "serial"))
  const TWINS :=
    IDLE.(rows := map[1 := Pending, 2 := Pending], nextJob := 3, at := map[1 := Runs(0), 2 := WithLoop],
          told := map[1 := [], 2 := []], loop := Admitting(TWIN, []), vol := map[1 := "volume", 2 := "volume"])

  lemma GetsTwin(log: seq<Action>, maxJobs: nat) returns (longer: seq<Action>)
    requires Leads(Start(maxJobs), log, IDLE.(maxJobs := maxJobs))
    ensures Leads(Start(maxJobs), longer, TWINS.(maxJobs := maxJobs)) && log <= longer
  {
    var untracked := UNTRACKED.(maxJobs := maxJobs);
    longer := Then(Start(maxJobs), log, IDLE.(maxJobs := maxJobs), Look("volume", "serial"), untracked);
    longer :=
      Then(Start(maxJobs), longer, untracked, Create("volume", "serial", false), TWINS.(maxJobs := maxJobs));
  }

  /** A job waits for the semaphore. Cancel does not find it, its volume counts as untracked, and is
      given a second job. */
  lemma QueuedJobIsInvisible() returns (log: seq<Action>, longer: seq<Action>)
    ensures Legal(Start(1), longer) && Legal(Start(1), log) && log <= longer
    ensures var s := Run(Start(1), log);
      s.rows == map[1 := Pending] && IsFound(s.t, 1, NotActive) && !Tracked(s.t, "volume")
    ensures var s := Run(Start(1), longer);
      && s.rows == map[1 := Pending, 2 := Pending]
      && 0 in s.gos && s.gos[0].q.guid == "volume" && s.loop == Admitting(TWIN, [])
  {
    log := Queues([]);
    log := Then(Start(1), log, QUEUED, RetryDone, IDLE);
    longer := GetsTwin(log, 1);
  }

  // ---- two runs of one card ---------------------------------------------------------------

  predicate IsRegistered(stage: Stage) {
    stage.Planning? || stage.Ingesting?
  }

  function RowIn(stage: Stage): Status {
    if stage.Ingesting? then Copying else Pending
  }

  function ToldIn(stage: Stage): seq<Topic> {
    if stage.Ingesting? then [JobStarted] else []
  }

  /** Both jobs have their goroutines, with two slots; the second registers after the first. */
  function Pair(one: Stage, two: Stage): State {
    State(Tables(if IsRegistered(two) then map["volume" := RunningJob(2, 1)]
                 else if IsRegistered(one) then FIRST_RUN else map[], map[], map[]),
          map[1 := RowIn(one), 2 := RowIn(two)], map[0 := Go(CARD, one, None), 1 := Go(TWIN, two, None)],
          Retrying([]), multiset{}, false, 3, 2, 2, map[1 := Runs(0), 2 := Runs(1)],
          map[1 := ToldIn(one), 2 := ToldIn(two)], {}, {}, {}, {}, map[1 := "volume", 2 := "volume"])
  }

  lemma AsksForCard() returns (log: seq<Action>)
    ensures Leads(Start(2), log, CREATED.(maxJobs := 2))
  {
    log := Then(Start(2), [], Start(2), Look("volume", "serial"), LOOKED.(maxJobs := 2));
    log := Then(Start(2), log, LOOKED.(maxJobs := 2), Create("volume", "serial", false), CREATED.(maxJobs := 2));
  }

  lemma QueuesCard() returns (log: seq<Action>)
    ensures Leads(Start(2), log, IDLE.(maxJobs := 2))
  {
    log := AsksForCard();
    log := Then(Start(2), log, CREATED.(maxJobs := 2), Admit, QUEUED.(maxJobs := 2));
    log := Then(Start(2), log, QUEUED.(maxJobs := 2), RetryDone, IDLE.(maxJobs := 2));
  }

  lemma FirstAcquires(log: seq<Action>) returns (longer: seq<Action>)
    requires Leads(Start(2), log, Pair(Queueing, Queueing))
    ensures Leads(Start(2), longer, Pair(Admitted, Queueing)) && log <= longer
  {
    assert Holders(Pair(Queueing, Queueing)) == {};
    longer := Then(Start(2), log, Pair(Queueing, Queueing), Acquire(0), Pair(Admitted, Queueing));
  }

  lemma FirstRegisters(log: seq<Action>) returns (longer: seq<Action>)
    requires Leads(Start(2), log, Pair(Admitted, Queueing))
    ensures Leads(Start(2), longer, Pair(Planning, Queueing)) && log <= longer
  {
    longer := Then(Start(2), log, Pair(Admitted, Queueing), Register(0), Pair(Planning, Queueing));
  }

  lemma SecondAcquires(log: seq<Action>) returns (longer: seq<Action>)
    requires Leads(Start(2), log, Pair(Planning, Queueing))
    ensures Leads(Start(2), longer, Pair(Planning, Admitted)) && log <= longer
  {
    assert Holders(Pair(Planning, Queueing)) == {0};
    longer := Then(Start(2), log, Pair(Planning, Queueing), Acquire(1), Pair(Planning, Admitted));
  }

  lemma SecondRegisters(log: seq<Action>) returns (longer: seq<Action>)
    requires Leads(Start(2), log, Pair(Planning, Admitted))
    ensures Leads(Start(2), longer, Pair(Planning, Planning)) && log <= longer
  {
    longer := Then(Start(2), log, Pair(Planning, Admitted), Register(1), Pair(Planning, Planning));
  }

  lemma FirstStarting()
    ensures RunMay(Pair(Planning, Planning), 0, Copying, JobStarted, Ingesting)
    ensures RunStep(Pair(Planning, Planning), 0, Copying, JobStarted, Ingesting) == Pair(Ingesting, Planning)
  {
    assert [] + [JobStarted] == [JobStarted];
  }

  lemma SecondStarting()
    ensures RunMay(Pair(Ingesting, Planning), 1, Copying, JobStarted, Ingesting)
    ensures RunStep(Pair(Ingesting, Planning), 1, Copying, JobStarted, Ingesting) == Pair(Ingesting, Ingesting)
  {
    assert [] + [JobStarted] == [JobStarted];
  }

  lemma FirstStarts(log: seq<Action>) returns (longer: seq<Action>)
    requires Leads(Start(2), log, Pair(Planning, Planning))
    ensures Leads(Start(2), longer, Pair(Ingesting, Planning)) && log <= longer
  {
    FirstStarting();
    longer :=
      Then(Start(2), log, Pair(Planning, Planning), Runner(0, Copying, JobStarted, Ingesting),
           Pair(Ingesting, Planning));
  }

  lemma SecondStarts(log: seq<Action>) returns (longer: seq<Action>)
    requires Leads(Start(2), log, Pair(Ingesting, Planning))
    ensures Leads(Start(2), longer, Pair(Ingesting, Ingesting)) && log <= longer
  {
    SecondStarting();
    longer :=
      Then(Start(2), log, Pair(Ingesting, Planning), Runner(1, Copying, JobStarted, Ingesting),
           Pair(Ingesting, Ingesting));
  }

  lemma TwinQueues(log: seq<Action>) returns (longer: seq<Action>)
    requires Leads(Start(2), log, IDLE.(maxJobs := 2))
    ensures Leads(Start(2), longer, Pair(Queueing, Queueing)) && log <= longer
  {
    longer := GetsTwin(log, 2);
    longer := Then(Start(2), longer, TWINS.(maxJobs := 2), Admit, Pair(Queueing, Queueing));
  }

  /** A card pulled and put back while its job waits for the semaphore: two jobs copy it at once, and Cancel
      does not find the one that registered first. */
  lemma TwinsBothCopy() returns (log: seq<Action>)
    ensures Legal(Start(2), log)
    ensures var s := Run(Start(2), log);
      && s.rows == map[1 := Copying, 2 := Copying]
      && InStage(s, 0, Ingesting) && InStage(s, 1, Ingesting)
      && s.gos[0].q == CARD && s.gos[1].q == TWIN && CARD.guid == TWIN.guid
      && IsFound(s.t, 1, NotActive)
  {
    log := QueuesCard();
    log := TwinQueues(log);
    log := FirstAcquires(log);
    log := FirstRegisters(log);
    log := SecondAcquires(log);
    log := SecondRegisters(log);
    log := FirstStarts(log);
    log := SecondStarts(log);
  }

  // ---- a question overwritten -------------------------------------------------------------

  const A := QueuedJob(1, "one", "same")
  const B := QueuedJob(2, "two", "same")

  /** Two unknown cards; `more`: the second has a row. */
  function Asked(more: bool, awaiting: map<Serial, QueuedJob>, loop: Loop, first: Place, second: Place,
                 displaced: set<JobId>): State
  {
    State(Tables(map[], map[], awaiting),
          if more then map[1 := AwaitingDecision, 2 := AwaitingDecision] else map[1 := AwaitingDecision],
          map[], loop, multiset{}, false, if more then 3 else 2, 0, 1,
          if more then map[1 := first, 2 := second] else map[1 := first],
          if more then map[1 := [], 2 := []] else map[1 := []], {}, displaced, {}, {},
          if more then map[1 := "one", 2 := "two"] else map[1 := "one"])
  }

  const LOOKED_ONE := Start(1).(loop := Attaching("one", "same"))
  const ASKING := Asked(false, map[], Asking(A), WithLoop, Gone, {})
  const ASKED := Asked(false, map["same" := A], Idle, Awaits("same"), Gone, {})
  const LOOKED_TWO := ASKED.(loop := Attaching("two", "same"))
  const ASKING_TWO := Asked(true, map["same" := A], Asking(B), Awaits("same"), WithLoop, {})
  const OVERWRITTEN := Asked(true, map["same" := B], Idle, Gone, Awaits("same"), {1})

  lemma AsksOne() returns (log: seq<Action>)
    ensures Leads(Start(1), log, ASKED)
  {
    log := Then(Start(1), [], Start(1), Look("one", "same"), LOOKED_ONE);
    log := Then(Start(1), log, LOOKED_ONE, Create("one", "same", true), ASKING);
    log := Then(Start(1), log, ASKING, FileQuestion, ASKED);
  }

  lemma SeesTwo(one: seq<Action>) returns (log: seq<Action>)
    requires Leads(Start(1), one, ASKED)
    ensures Leads(Start(1), log, ASKING_TWO)
  {
    log := Then(Start(1), one, ASKED, Look("two", "same"), LOOKED_TWO);
    log := Then(Start(1), log, LOOKED_TWO, Create("two", "same", true), ASKING_TWO);
  }

  lemma AsksTwo(two: seq<Action>) returns (log: seq<Action>)
    requires Leads(Start(1), two, ASKING_TWO)
    ensures Leads(Start(1), log, OVERWRITTEN)
  {
    log := Then(Start(1), two, ASKING_TWO, FileQuestion, OVERWRITTEN);
  }

  /** Two unknown cards with one serial: the first one's job stays open with nobody to settle it. */
  lemma QuestionLost() returns (log: seq<Action>)
    ensures Legal(Start(1), log)
    ensures var s := Run(Start(1), log);
      1 in s.rows && s.rows[1].AwaitingDecision? && Settled(s, 1) && !s.down
  {
    log := AsksOne();
    log := SeesTwo(log);
    log := AsksTwo(log);
    StartOk(1);
    RunKeeps(Start(1), log);
    GoneIsSettled(OVERWRITTEN, 1);
  }
}
