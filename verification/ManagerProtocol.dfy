/** The job manager at mutex granularity: the event loop, one goroutine per admitted job, the
    semaphore, and Cancel calls from outside, in every interleaving.

    Each action is one hold of the mutex, one write to the jobs table, or one move of a
    goroutine. A runner's table write and the event published right after it are one action,
    and cancelling a context happens with the lookup that found it: the runner may act on it
    at any later point, or never. Table writes succeed. */
module ManagerProtocol {
  import opened Text
  import opened Jobs
  import opened ManagerTables
  import opened JobEvents

  datatype Stage =
    | Queueing                  // waits for the semaphore
    | Admitted                  // has a slot, not registered yet
    | Planning                  // registered; nothing copied yet
    | Ingesting                 // copying
    | Returned(parks: bool)     // the run is over; `parks` if the destination was missing
    | Leaving                   // out of the maps; still holds its slot

  datatype Go = Go(q: QueuedJob, stage: Stage, cause: Option<Cause>)
  {
    predicate HoldsJob() { !stage.Leaving? }
  }

  datatype Write = Write(job: JobId, status: Status)

  /** Where the event loop stands. */
  datatype Loop =
    | Idle
    | Attaching(guid: Guid, serial: Serial)          // the volume was not tracked when looked up
    | Asking(q: QueuedJob)                           // row created, question not filed yet
    | Deciding(q: QueuedJob)                         // question taken, row not pending yet
    | Admitting(q: QueuedJob, rest: seq<QueuedJob>)  // about to start q's goroutine
    | Probing(todo: seq<QueuedJob>)                  // blocked jobs listed, destination not resolved yet
    | Retrying(todo: seq<QueuedJob>)                 // destination is back
    | Closing(now: Write, next: Option<Write>)       // table writes for jobs taken out
  {
    /** Jobs listed for retry whose turn has not come. */
    function Todo(): seq<QueuedJob> {
      match this
      case Probing(todo) => todo
      case Retrying(todo) => todo
      case Admitting(_, rest) => rest
      case _ => []
    }

    /** The loop alone holds the job. */
    predicate Holds(j: JobId) {
      match this
      case Asking(q) => q.job == j
      case Deciding(q) => q.job == j
      case Admitting(q, _) => q.job == j
      case Closing(w, next) => w.job == j || (next.Some? && next.value.job == j)
      case _ => false
    }
  }

  predicate InTodo(todo: seq<QueuedJob>, j: JobId) {
    exists i :: 0 <= i < |todo| && todo[i].job == j
  }

  /** Who holds a job. `Listed`: only the retry list, a Cancel having taken it out of `blocked`. */
  datatype Place = Awaits(serial: Serial) | Blocks | Runs(go: GoId) | WithLoop | Listed | WithCancel | Gone

  /** `finishing`: Cancel calls that took a job out and have not written its row yet. History:
      `at` (who holds each job), `told` (its events so far), `revived` (jobs admitted again
      although a Cancel had taken them out of `blocked`), `displaced` (jobs whose question was overwritten),
      `abandoned` (jobs given up at shutdown), `vol` (each job's volume), `bad` (jobs whose row took a step the status
      machine does not have). */
  datatype State = State(t: Tables, rows: map<JobId, Status>, gos: map<GoId, Go>, loop: Loop,
                         finishing: multiset<JobId>, down: bool, nextJob: JobId, nextGo: GoId, maxJobs: nat,
                         at: map<JobId, Place>, told: map<JobId, seq<Topic>>,
                         revived: set<JobId>, displaced: set<JobId>, abandoned: set<JobId>, bad: set<JobId>,
                         vol: map<JobId, Guid>)

  function Start(maxJobs: nat): State {
    State(Tables(map[], map[], map[]), map[], map[], Idle, multiset{}, false, 1, 0, maxJobs,
          map[], map[], {}, {}, {}, {}, map[])
  }

  datatype Action =
    | Look(guid: Guid, serial: Serial)
    | Ignore
    | Create(guid: Guid, serial: Serial, ask: bool)
    | FileQuestion
    | Admit
    | Probe(order: seq<QueuedJob>)
    | ProbeFails
    | ProbeWorks
    | RetryNext
    | RetryDone
    | Detach(guid: Guid, b: Option<JobId>, a: Option<Serial>)
    | Settle
    | Decide(serial: Serial, copy: bool)
    | DecideWrite
    | Cancel(job: JobId, f: Found)
    | CancelWrite(job: JobId)
    | Acquire(go: GoId)
    | Quit(go: GoId)
    | Register(go: GoId)
    | Runner(go: GoId, status: Status, topic: Topic, stage: Stage)
    | Unregister(go: GoId)
    | Release(go: GoId)
    | GoDown

  function Holders(s: State): set<GoId> {
    set g | g in s.gos && !s.gos[g].stage.Queueing?
  }

  predicate InStage(s: State, g: GoId, stage: Stage) {
    g in s.gos && s.gos[g].stage == stage
  }

  /** What a runner may write and publish in the stage it is in, and where that takes it. A run is
      cancelled only by the user; it fails in the copy loop only when something else ended it. */
  predicate RunMay(s: State, g: GoId, status: Status, topic: Topic, stage: Stage) {
    && g in s.gos
    && var cause := s.gos[g].cause;
       match s.gos[g].stage
       case Planning =>
         || (topic == DestMissing && status == Pending && stage == Returned(true))
         || (topic == JobFailed && (status == Failed || (status == Cancelled && cause == Some(UserCancelled)))
             && stage == Returned(false))
         || (topic == JobStarted && status == Copying && stage == Ingesting)
       case Ingesting =>
         || (topic == JobProgress && status == Copying && stage == Ingesting)
         || (stage == Returned(false) && s.gos[g].q.job in s.told && Life(s.told[s.gos[g].q.job]).Moving?
             && ((topic == JobCompleted && status == Done)
                 || (topic == JobFailed && cause.Some?
                     && status == if cause == Some(UserCancelled) then Cancelled else Failed)))
       case _ => false
  }

  predicate Enabled(s: State, a: Action) {
    match a
    case Look(guid, _) => s.loop.Idle? && !Tracked(s.t, guid)
    case Ignore => s.loop.Attaching?
    case Create(guid, serial, _) => s.loop == Attaching(guid, serial)
    case FileQuestion => s.loop.Asking?
    case Admit => s.loop.Admitting?
    case Probe(order) => s.loop.Idle? && Lists(order, s.t.blocked)
    case ProbeFails => s.loop.Probing?
    case ProbeWorks => s.loop.Probing?
    case RetryNext => s.loop.Retrying? && s.loop.todo != []
    case RetryDone => s.loop.Retrying? && s.loop.todo == []
    case Detach(guid, b, x) => s.loop.Idle? && PicksBlocked(s.t, guid, b) && PicksAwaiting(s.t, guid, x)
    case Settle => s.loop.Closing?
    case Decide(serial, _) => s.loop.Idle? && serial in s.t.awaiting
    case DecideWrite => s.loop.Deciding?
    case Cancel(j, f) => IsFound(s.t, j, f)
    case CancelWrite(j) => j in s.finishing
    case Acquire(g) => InStage(s, g, Queueing) && |Holders(s)| < s.maxJobs
    case Quit(g) => InStage(s, g, Queueing) && s.down
    case Register(g) => InStage(s, g, Admitted)
    case Runner(g, status, topic, stage) => RunMay(s, g, status, topic, stage)
    case Unregister(g) => g in s.gos && s.gos[g].stage.Returned?
    case Release(g) => InStage(s, g, Leaving)
    case GoDown => true
  }

  // ---- a job's events over all its runs ---------------------------------------------------

  function LifeStep(p: RunPhase, topic: Topic): RunPhase {
    match topic
    case DestMissing => if p.Fresh? || p.Waiting? then Waiting else Illegal
    case JobStarted => if p.Fresh? || p.Waiting? then Started else Illegal
    case JobProgress => if p.Started? || p.Moving? then Moving else Illegal
    case JobCompleted => if p.Moving? then Closed else Illegal
    case JobFailed => if p.Fresh? || p.Waiting? || p.Moving? then Closed else Illegal
  }

  function Life(ts: seq<Topic>): RunPhase {
    if ts == [] then Fresh else LifeStep(Life(ts[..|ts| - 1]), ts[|ts| - 1])
  }

  // ---- steps ------------------------------------------------------------------------------

  /** A write to the jobs table. */
  function Put(s: State, j: JobId, status: Status): State {
    s.(rows := s.rows[j := status],
       bad := if j in s.rows && CanFollow(s.rows[j], status) then s.bad else s.bad + {j})
  }

  /** A runner's write, its event, and its next stage. */
  function RunStep(s: State, g: GoId, status: Status, topic: Topic, stage: Stage): State
    requires g in s.gos
  {
    var go := s.gos[g];
    var j := go.q.job;
    var u := if topic.JobProgress? then s else Put(s, j, status);
    u.(told := s.told[j := (if j in s.told then s.told[j] else []) + [topic]],
       gos := s.gos[g := go.(stage := stage)])
  }

  function SetStage(s: State, g: GoId, stage: Stage): State
    requires g in s.gos
  {
    s.(gos := s.gos[g := s.gos[g].(stage := stage)])
  }

  /** Cancelling a context: the first cause stays. */
  function Fire(gos: map<GoId, Go>, g: GoId, cause: Cause): map<GoId, Go> {
    if g in gos && gos[g].cause.None? then gos[g := gos[g].(cause := Some(cause))] else gos
  }

  function DoCreate(s: State, guid: Guid, serial: Serial, ask: bool): State {
    var j := s.nextJob;
    var q := QueuedJob(j, guid, serial);
    s.(rows := s.rows[j := if ask then AwaitingDecision else Pending], nextJob := j + 1,
       at := s.at[j := WithLoop], told := s.told[j := []], vol := s.vol[j := guid],
       loop := if ask then Asking(q) else Admitting(q, []))
  }

  /** A question is lost: nothing leads to its job any more. */
  function Displace(s: State, serial: Serial, q: QueuedJob): State {
    s.(t := DropAwaiting(s.t, Some(serial)), at := s.at[q.job := Gone], displaced := s.displaced + {q.job})
  }

  function FileFree(s: State, q: QueuedJob): State {
    s.(t := s.t.(awaiting := s.t.awaiting[q.serial := q]), loop := Idle, at := s.at[q.job := Awaits(q.serial)])
  }

  /** Filing a question under a serial that has one overwrites it. */
  function DoFileQuestion(s: State, q: QueuedJob): State {
    FileFree(if q.serial in s.t.awaiting then Displace(s, q.serial, s.t.awaiting[q.serial]) else s, q)
  }

  function DoAdmit(s: State, q: QueuedJob, rest: seq<QueuedJob>): State {
    s.(gos := s.gos[s.nextGo := Go(q, Queueing, if s.down then Some(Shutdown) else None)],
       nextGo := s.nextGo + 1, at := s.at[q.job := Runs(s.nextGo)], loop := Retrying(rest))
  }

  function DoProbeFails(s: State): State {
    s.(loop := Idle, at := map j | j in s.at ::
        if !s.at[j].Listed? then s.at[j] else if j in s.finishing then WithCancel else Gone)
  }

  function DoRetryNext(s: State, q: QueuedJob, rest: seq<QueuedJob>): State {
    s.(t := DropBlocked(s.t, Some(q.job)), loop := Admitting(q, rest), at := s.at[q.job := WithLoop],
       revived := if q.job in s.t.blocked then s.revived else s.revived + {q.job})
  }

  /** The loop takes a blocked job out, to write its row as failed later. */
  function LoopTakesBlocked(s: State, j: JobId): State {
    s.(t := DropBlocked(s.t, Some(j)), at := s.at[j := WithLoop], loop := Closing(Write(j, Failed), None))
  }

  /** The loop takes a question out, to write its row as cancelled later. */
  function LoopTakesAwaiting(s: State, serial: Serial, q: QueuedJob): State {
    s.(t := DropAwaiting(s.t, Some(serial)), at := s.at[q.job := WithLoop],
       loop := if s.loop.Closing? then Closing(s.loop.now, Some(Write(q.job, Cancelled)))
               else Closing(Write(q.job, Cancelled), None))
  }

  function DoDetach(s: State, guid: Guid, b: Option<JobId>, a: Option<Serial>): State {
    var s1 := if guid in s.t.byGUID then s.(gos := Fire(s.gos, s.t.byGUID[guid].go, CardRemoved)) else s;
    var s2 := if b.Some? then LoopTakesBlocked(s1, b.value) else s1;
    if a.Some? && a.value in s2.t.awaiting then LoopTakesAwaiting(s2, a.value, s2.t.awaiting[a.value]) else s2
  }

  function DoSettle(s: State, w: Write, next: Option<Write>): State {
    Put(s, w.job, w.status).(loop := if next.None? then Idle else Closing(next.value, None),
                             at := s.at[w.job := Gone])
  }

  function DoDecideCopy(s: State, serial: Serial, q: QueuedJob): State {
    s.(t := DropAwaiting(s.t, Some(serial)), at := s.at[q.job := WithLoop], loop := Deciding(q))
  }

  function DoDecideWrite(s: State, q: QueuedJob): State {
    Put(s, q.job, Pending).(loop := Admitting(q, []))
  }

  /** Cancel takes a blocked job out; if it is listed for retry, the loop may admit it all the same. */
  function CancelBlocked(s: State, j: JobId): State {
    s.(t := DropBlocked(s.t, Some(j)), finishing := s.finishing + multiset{j},
       at := s.at[j := if InTodo(s.loop.Todo(), j) then Listed else WithCancel])
  }

  function CancelAwaiting(s: State, j: JobId, serial: Serial): State {
    s.(t := DropAwaiting(s.t, Some(serial)), finishing := s.finishing + multiset{j}, at := s.at[j := WithCancel])
  }

  function DoCancel(s: State, j: JobId, f: Found): State {
    match f
    case AsRunning(g) => s.(gos := Fire(s.gos, g, UserCancelled))
    case AsBlocked => CancelBlocked(s, j)
    case AsAwaiting(serial) => CancelAwaiting(s, j, serial)
    case NotActive => s
  }

  function DoCancelWrite(s: State, j: JobId): State {
    var u := Put(s, j, Cancelled);
    u.(finishing := s.finishing - multiset{j},
       at := if j in s.at && s.at[j].WithCancel? then s.at[j := Gone] else s.at)
  }

  /** Shutdown reached a goroutine still waiting for the semaphore. */
  function DoQuit(s: State, g: GoId): State
    requires g in s.gos
  {
    var j := s.gos[g].q.job;
    s.(gos := s.gos - {g}, at := s.at[j := Gone], abandoned := s.abandoned + {j})
  }

  function DoRegister(s: State, g: GoId): State
    requires g in s.gos
  {
    var q := s.gos[g].q;
    SetStage(s, g, Planning).(t := s.t.(byGUID := s.t.byGUID[q.guid := RunningJob(q.job, g)]))
  }

  function DoUnregister(s: State, g: GoId): State
    requires g in s.gos && s.gos[g].stage.Returned?
  {
    var go := s.gos[g];
    s.(t := Unregistered(s.t, go.q, go.stage.parks),
       gos := s.gos[g := go.(stage := Leaving)],
       at := s.at[go.q.job := if go.stage.parks then Blocks else Gone])
  }

  /** Shutdown cancels every context. */
  function DoGoDown(s: State): State {
    s.(down := true, gos := map g | g in s.gos ::
      if s.gos[g].cause.None? then s.gos[g].(cause := Some(Shutdown)) else s.gos[g])
  }

  function Step(s: State, a: Action): State
    requires Enabled(s, a)
  {
    match a
    case Look(guid, serial) => s.(loop := Attaching(guid, serial))
    case Ignore => s.(loop := Idle)
    case Create(guid, serial, ask) => DoCreate(s, guid, serial, ask)
    case FileQuestion => DoFileQuestion(s, s.loop.q)
    case Admit => DoAdmit(s, s.loop.q, s.loop.rest)
    case Probe(order) => s.(loop := Probing(order))
    case ProbeFails => DoProbeFails(s)
    case ProbeWorks => s.(loop := Retrying(s.loop.todo))
    case RetryNext => DoRetryNext(s, s.loop.todo[0], s.loop.todo[1..])
    case RetryDone => s.(loop := Idle)
    case Detach(guid, b, x) => DoDetach(s, guid, b, x)
    case Settle => DoSettle(s, s.loop.now, s.loop.next)
    case Decide(serial, copy) =>
      if copy then DoDecideCopy(s, serial, s.t.awaiting[serial])
      else LoopTakesAwaiting(s, serial, s.t.awaiting[serial])
    case DecideWrite => DoDecideWrite(s, s.loop.q)
    case Cancel(j, f) => DoCancel(s, j, f)
    case CancelWrite(j) => DoCancelWrite(s, j)
    case Acquire(g) => SetStage(s, g, Admitted)
    case Quit(g) => DoQuit(s, g)
    case Register(g) => DoRegister(s, g)
    case Runner(g, status, topic, stage) => RunStep(s, g, status, topic, stage)
    case Unregister(g) => DoUnregister(s, g)
    case Release(g) => s.(gos := s.gos - {g})
    case GoDown => DoGoDown(s)
  }

  // ---- the invariant ----------------------------------------------------------------------

  /** Ids in use are old ids, and every job has a row, a place and an event history. */
  predicate IdsOk(s: State) {
    && (forall j :: j in s.at ==> j in s.rows && j in s.told && j < s.nextJob)
    && (forall j :: j in s.rows ==> j in s.at)
    && (forall g :: g in s.gos ==> g < s.nextGo)
    && (forall j :: j in s.finishing ==> j in s.at)
  }

  /** The maps, the goroutines and the loop hold exactly the jobs placed with them. */
  predicate AwaitingOk(s: State) {
    && (forall x :: x in s.t.awaiting ==>
          s.t.awaiting[x].serial == x && s.t.awaiting[x].job in s.at && s.at[s.t.awaiting[x].job] == Awaits(x))
    && (forall j :: j in s.at && s.at[j].Awaits? ==>
          s.at[j].serial in s.t.awaiting && s.t.awaiting[s.at[j].serial].job == j)
  }

  predicate BlockedOk(s: State) {
    && (forall j :: j in s.t.blocked ==> s.t.blocked[j].job == j && j in s.at && s.at[j] == Blocks)
    && (forall j :: j in s.at && s.at[j].Blocks? ==> j in s.t.blocked)
  }

  predicate GosOk(s: State) {
    && (forall g :: g in s.gos && s.gos[g].HoldsJob() ==> s.gos[g].q.job in s.at && s.at[s.gos[g].q.job] == Runs(g))
    && (forall j :: j in s.at && s.at[j].Runs? ==>
          s.at[j].go in s.gos && s.gos[s.at[j].go].q.job == j && s.gos[s.at[j].go].HoldsJob())
  }

  predicate LoopOk(s: State) {
    && (forall j :: j in s.at ==> (s.at[j].WithLoop? <==> s.loop.Holds(j)))
    && (s.loop.Asking? || s.loop.Deciding? || s.loop.Admitting? ==> s.loop.q.job in s.at)
    && (s.loop.Closing? ==>
          && s.loop.now.job in s.at && s.loop.now.status.Terminal()
          && (s.loop.next.Some? ==>
                && s.loop.next.value.job in s.at && s.loop.next.value.job != s.loop.now.job
                && s.loop.next.value.status.Terminal()))
  }

  /** Listed jobs are still blocked, or a Cancel took them out. */
  predicate TodoOk(s: State) {
    var todo := s.loop.Todo();
    && (forall i :: 0 <= i < |todo| ==> StillListed(s, todo[i]))
    && (forall i, k :: 0 <= i < k < |todo| ==> todo[i].job != todo[k].job)
    && (forall j :: j in s.at && s.at[j].Listed? ==> InTodo(todo, j))
  }

  predicate StillListed(s: State, q: QueuedJob) {
    && q.job in s.at
    && (s.at[q.job].Listed? || (s.at[q.job].Blocks? && q.job in s.t.blocked && s.t.blocked[q.job] == q))
  }

  predicate FinishingOk(s: State) {
    && (forall j :: j in s.finishing && j !in s.revived ==>
          j in s.at && (s.at[j].WithCancel? || s.at[j].Listed?) && s.finishing[j] == 1)
    && (forall j :: j in s.at && s.at[j].WithCancel? ==> j in s.finishing)
  }

  predicate ByGUIDOk(s: State) {
    forall x :: x in s.t.byGUID ==>
      var r := s.t.byGUID[x];
      && r.go in s.gos && s.gos[r.go].q.job == r.job && s.gos[r.go].q.guid == x
      && (s.gos[r.go].stage.Planning? || s.gos[r.go].stage.Ingesting? || s.gos[r.go].stage.Returned?)
  }

  /** The status a job's row has where the job is. */
  predicate StatusFits(s: State, j: JobId)
    requires j in s.at && j in s.rows
  {
    var r := s.rows[j];
    match s.at[j]
    case Awaits(_) => r.AwaitingDecision?
    case Blocks => r.Pending?
    case Runs(g) => g in s.gos ==>
      (match s.gos[g].stage
       case Ingesting => r.Copying?
       case Returned(parks) => if parks then r.Pending? else r.Terminal()
       case _ => r.Pending?)
    case WithLoop =>
      (match s.loop
       case Asking(_) => r.AwaitingDecision?
       case Deciding(_) => r.AwaitingDecision?
       case Closing(w, next) => CanFollow(r, if w.job == j || next.None? then w.status else next.value.status)
       case _ => r.Pending?)
    case Listed => if j in s.finishing then r.Pending? else r.Terminal()
    case WithCancel => r.AwaitingDecision? || r.Pending?
    case Gone => r.Terminal() || (j in s.displaced && r.AwaitingDecision?) || (j in s.abandoned && r.Pending?)
  }

  /** No row says `Verifying`. An open job has somebody who will settle it, or is excused: its question was overwritten,
      or it was given up at shutdown. */
  predicate OwnerFits(s: State, j: JobId)
    requires j in s.at && j in s.rows
  {
    && !s.rows[j].Verifying?
    && (!s.rows[j].Terminal() && (s.at[j].Gone? || s.at[j].Listed?) ==>
          j in s.finishing || j in s.displaced || j in s.abandoned)
    && (s.at[j].Runs? && InStage(s, s.at[j].go, Returned(false)) ==> s.rows[j].Terminal())
    && (j in s.displaced ==> s.at[j].Gone? && j !in s.revived && s.rows[j].AwaitingDecision?)
  }

  /** The events of a job whose goroutine is in this stage. */
  predicate FitsStage(p: RunPhase, stage: Stage) {
    match stage
    case Ingesting => p.Started? || p.Moving?
    case Returned(parks) => if parks then p.Waiting? else p.Closed?
    case _ => p.Fresh? || p.Waiting?
  }

  /** The events a job has had where the job is. */
  predicate LifeFits(s: State, j: JobId)
    requires j in s.at && j in s.told
  {
    var p := Life(s.told[j]);
    match s.at[j]
    case Runs(g) => g in s.gos ==> FitsStage(p, s.gos[g].stage)
    case WithCancel => !p.Illegal?
    case Gone => !p.Illegal?
    case _ => p.Fresh? || p.Waiting?
  }

  /** Somebody will write the job's row as over, apart from Cancel calls. */
  predicate Working(s: State, j: JobId)
    requires j in s.at
  {
    match s.at[j]
    case Blocks => true
    case WithLoop => true
    case Runs(g) => !InStage(s, g, Returned(false))
    case _ => false
  }

  /** Writes that end the job: made, owed by Cancel calls, or to be expected. */
  function Ends(s: State, j: JobId): nat
    requires j in s.at && j in s.rows
  {
    (if s.rows[j].Terminal() then 1 else 0) + s.finishing[j] + (if Working(s, j) then 1 else 0)
  }

  predicate JobOk(s: State, j: JobId)
    requires j in s.at && j in s.rows && j in s.told
  {
    && (j !in s.revived ==> j !in s.bad && StatusFits(s, j))
    && (j in s.revived ==> j in s.bad || j in s.abandoned || Ends(s, j) >= 2)
    && OwnerFits(s, j) && LifeFits(s, j)
  }

  predicate JobsOk(s: State) {
    forall j :: j in s.at && j in s.rows && j in s.told ==> JobOk(s, j)
  }

  /** A job once blocked is past its question. */
  predicate RevivedOk(s: State) {
    forall j :: j in s.revived ==>
      j in s.at && !s.at[j].Awaits? && !((s.loop.Asking? || s.loop.Deciding?) && s.loop.q.job == j)
  }

  /** What history names existed. */
  predicate PastOk(s: State) {
    && (forall j :: j in s.displaced ==> j in s.at)
    && (forall j :: j in s.abandoned ==> j in s.at)
    && (forall j :: j in s.bad ==> j in s.at)
    && (s.abandoned != {} ==> s.down)
  }

  predicate Filed(s: State) {
    IdsOk(s) && AwaitingOk(s) && BlockedOk(s) && GosOk(s)
  }

  predicate Driven(s: State) {
    LoopOk(s) && TodoOk(s) && FinishingOk(s) && RevivedOk(s) && ByGUIDOk(s)
  }

  predicate Places(s: State) {
    Filed(s) && Driven(s)
  }

  predicate Inv(s: State) {
    Places(s) && JobsOk(s) && PastOk(s) && |Holders(s)| <= s.maxJobs
  }
}
