/** A run in which a job that a Cancel has ended starts copying all the same: the Cancel lands after
    retryBlocked has listed the job and before it takes it off the list. */
module RetryWindow {
  import opened Text
  import opened Jobs
  import opened ManagerTables
  import opened JobEvents
  import opened ManagerProtocol
  import opened ManagerTheorems

  const CARD := QueuedJob(1, "volume", "serial")

  /** The manager with one slot and one job. */
  function Scene(byGUID: map<Guid, RunningJob>, blocked: map<JobId, QueuedJob>, status: Status, gos: map<GoId, Go>,
                 loop: Loop, owed: multiset<JobId>, nextGo: GoId, place: Place, told: seq<Topic>,
                 revived: set<JobId>): State
  {
    State(Tables(byGUID, blocked, map[]), map[1 := status], gos, loop, owed, false, 2, nextGo, 1,
          map[1 := place], map[1 := told], revived, {}, {}, {}, map[1 := "volume"])
  }

  predicate Leads(s: State, log: seq<Action>, t: State) {
    Legal(s, log) && Run(s, log) == t
  }

  lemma Then(s: State, log: seq<Action>, m: State, a: Action, t: State) returns (longer: seq<Action>)
    requires Leads(s, log, m) && Enabled(m, a) && Step(m, a) == t
    ensures Leads(s, longer, t) && longer == log + [a]
  {
    longer := log + [a];
    assert longer[..|log|] == log;
  }

  function Alone(g: GoId, stage: Stage): map<GoId, Go> {
    map[g := Go(CARD, stage, None)]
  }

  const FIRST_RUN := map["volume" := RunningJob(1, 0)]
  const SECOND_RUN := map["volume" := RunningJob(1, 1)]

  const LOOKED := Start(1).(loop := Attaching("volume", "serial"))
  const CREATED := Scene(map[], map[], Pending, map[], Admitting(CARD, []), multiset{}, 0, WithLoop, [], {})
  const QUEUED := Scene(map[], map[], Pending, Alone(0, Queueing), Retrying([]), multiset{}, 1, Runs(0), [], {})
  const HOLDING := Scene(map[], map[], Pending, Alone(0, Admitted), Retrying([]), multiset{}, 1, Runs(0), [], {})
  const FIRST := Scene(FIRST_RUN, map[], Pending, Alone(0, Planning), Retrying([]), multiset{}, 1, Runs(0), [], {})
  const MISSED :=
    Scene(FIRST_RUN, map[], Pending, Alone(0, Returned(true)), Retrying([]), multiset{}, 1, Runs(0), [DestMissing], {})
  const LEFT :=
    Scene(map[], map[1 := CARD], Pending, Alone(0, Leaving), Retrying([]), multiset{}, 1, Blocks, [DestMissing], {})
  const FREED := Scene(map[], map[1 := CARD], Pending, map[], Retrying([]), multiset{}, 1, Blocks, [DestMissing], {})
  const PARKED := Scene(map[], map[1 := CARD], Pending, map[], Idle, multiset{}, 1, Blocks, [DestMissing], {})
  const LISTED :=
    Scene(map[], map[1 := CARD], Pending, map[], Probing([CARD]), multiset{}, 1, Blocks, [DestMissing], {})
  const TAKEN := Scene(map[], map[], Pending, map[], Probing([CARD]), multiset{1}, 1, Listed, [DestMissing], {})
  const ENDED := Scene(map[], map[], Cancelled, map[], Probing([CARD]), multiset{}, 1, Listed, [DestMissing], {})
  const MOUNTED := Scene(map[], map[], Cancelled, map[], Retrying([CARD]), multiset{}, 1, Listed, [DestMissing], {})
  const REVIVED :=
    Scene(map[], map[], Cancelled, map[], Admitting(CARD, []), multiset{}, 1, WithLoop, [DestMissing], {1})
  const REQUEUED :=
    Scene(map[], map[], Cancelled, Alone(1, Queueing), Retrying([]), multiset{}, 2, Runs(1), [DestMissing], {1})
  const REHOLDING :=
    Scene(map[], map[], Cancelled, Alone(1, Admitted), Retrying([]), multiset{}, 2, Runs(1), [DestMissing], {1})
  const SECOND :=
    Scene(SECOND_RUN, map[], Cancelled, Alone(1, Planning), Retrying([]), multiset{}, 2, Runs(1), [DestMissing], {1})
  const RISEN :=
    Scene(SECOND_RUN, map[], Copying, Alone(1, Ingesting), Retrying([]), multiset{}, 2, Runs(1),
          [DestMissing, JobStarted], {1}).(bad := {1})

  lemma Queues(log: seq<Action>) returns (longer: seq<Action>)
    requires Leads(Start(1), log, Start(1))
    ensures Leads(Start(1), longer, QUEUED) && log <= longer
  {
    longer := Then(Start(1), log, Start(1), Look("volume", "serial"), LOOKED);
    longer := Then(Start(1), longer, LOOKED, Create("volume", "serial", false), CREATED);
    longer := Then(Start(1), longer, CREATED, Admit, QUEUED);
  }

  lemma Registers(log: seq<Action>) returns (longer: seq<Action>)
    requires Leads(Start(1), log, QUEUED)
    ensures Leads(Start(1), longer, FIRST) && log <= longer
  {
    assert Holders(QUEUED) == {};
    longer := Then(Start(1), log, QUEUED, Acquire(0), HOLDING);
    longer := Then(Start(1), longer, HOLDING, Register(0), FIRST);
  }

  lemma FindsNoDestination(log: seq<Action>) returns (longer: seq<Action>)
    requires Leads(Start(1), log, FIRST)
    ensures Leads(Start(1), longer, LEFT) && log <= longer
  {
    assert FIRST.told[1] + [DestMissing] == [DestMissing];
    longer := Then(Start(1), log, FIRST, Runner(0, Pending, DestMissing, Returned(true)), MISSED);
    longer := Then(Start(1), longer, MISSED, Unregister(0), LEFT);
  }

  lemma Parks(log: seq<Action>) returns (longer: seq<Action>)
    requires Leads(Start(1), log, LEFT)
    ensures Leads(Start(1), longer, PARKED) && log <= longer
  {
    longer := Then(Start(1), log, LEFT, Release(0), FREED);
    longer := Then(Start(1), longer, FREED, RetryDone, PARKED);
  }

  lemma IsTakenOut(log: seq<Action>) returns (longer: seq<Action>)
    requires Leads(Start(1), log, PARKED)
    ensures Leads(Start(1), longer, TAKEN) && log <= longer
  {
    longer := Then(Start(1), log, PARKED, Probe([CARD]), LISTED);
    assert LISTED.loop.Todo()[0].job == 1;
    longer := Then(Start(1), longer, LISTED, Cancel(1, AsBlocked), TAKEN);
  }

  lemma IsCancelled(log: seq<Action>) returns (longer: seq<Action>)
    requires Leads(Start(1), log, TAKEN)
    ensures Leads(Start(1), longer, MOUNTED) && log <= longer
  {
    longer := Then(Start(1), log, TAKEN, CancelWrite(1), ENDED);
    longer := Then(Start(1), longer, ENDED, ProbeWorks, MOUNTED);
  }

  lemma IsAdmittedAgain(log: seq<Action>) returns (longer: seq<Action>)
    requires Leads(Start(1), log, MOUNTED)
    ensures Leads(Start(1), longer, REQUEUED) && log <= longer
  {
    assert [CARD][1..] == [];
    longer := Then(Start(1), log, MOUNTED, RetryNext, REVIVED);
    longer := Then(Start(1), longer, REVIVED, Admit, REQUEUED);
  }

  lemma RegistersAgain(log: seq<Action>) returns (longer: seq<Action>)
    requires Leads(Start(1), log, REQUEUED)
    ensures Leads(Start(1), longer, SECOND) && log <= longer
  {
    assert Holders(REQUEUED) == {};
    longer := Then(Start(1), log, REQUEUED, Acquire(1), REHOLDING);
    longer := Then(Start(1), longer, REHOLDING, Register(1), SECOND);
  }

  lemma Copies(log: seq<Action>) returns (longer: seq<Action>)
    requires Leads(Start(1), log, SECOND)
    ensures Leads(Start(1), longer, RISEN) && log <= longer
  {
    assert SECOND.told[1] + [JobStarted] == [DestMissing, JobStarted];
    longer := Then(Start(1), log, SECOND, Runner(1, Copying, JobStarted, Ingesting), RISEN);
  }

  /** A cancelled job copies. */
  lemma CancelledJobCopies() returns (log: seq<Action>, longer: seq<Action>)
    ensures Legal(Start(1), longer) && log <= longer && Legal(Start(1), log)
    ensures Run(Start(1), log).rows == map[1 := Cancelled] && Run(Start(1), longer).rows == map[1 := Copying]
  {
    log := Queues([]);
    log := Registers(log);
    log := FindsNoDestination(log);
    log := Parks(log);
    log := IsTakenOut(log);
    log := IsCancelled(log);
    longer := IsAdmittedAgain(log);
    longer := RegistersAgain(longer);
    longer := Copies(longer);
  }
}
