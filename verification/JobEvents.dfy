/** Job statuses and the effects a job run has on the outside: status and progress writes to
    the jobs table, events on the bus, and the eject. */
module JobEvents {
  import opened Text

  datatype Status = AwaitingDecision | Pending | Copying | Verifying | Done | Failed | Cancelled
  {
    predicate Terminal() { Done? || Failed? || Cancelled? }
  }

  datatype Topic = JobStarted | JobProgress | JobCompleted | JobFailed | DestMissing

  datatype Effect =
    | WroteTotals(files: nat, bytes: nat, skipped: nat)
    | WroteStatus(status: Status)
    | WroteProgress(copied: nat, bytes: nat, failed: nat)
    | Published(topic: Topic, jobStatus: Status, copied: nat, failed: nat, live: nat, total: nat)
    | Ejected

  /** What flushing progress does: it never claims more bytes than the job has. */
  predicate IsProgress(e: Effect) {
    || e.WroteProgress?
    || (e.Published? && e.topic == JobProgress && e.jobStatus == Copying && e.live <= e.total)
  }

  /** `after` is `before` followed by progress effects only. */
  predicate ProgressAdded(before: seq<Effect>, after: seq<Effect>) {
    before <= after && forall i :: |before| <= i < |after| ==> IsProgress(after[i])
  }

  lemma ProgressAddedTrans(a: seq<Effect>, b: seq<Effect>, c: seq<Effect>)
    requires ProgressAdded(a, b) && ProgressAdded(b, c)
    ensures ProgressAdded(a, c)
  {
  }

  // ---- the life of a job as seen from outside ---------------------------------------------

  /** The status machine. `Verifying` exists in the table's vocabulary but nothing leads to it. */
  predicate CanFollow(s: Status, t: Status) {
    match s
    case AwaitingDecision => t.Pending? || t.Cancelled?
    case Pending => t.Pending? || t.Copying? || t.Failed? || t.Cancelled?
    case Copying => t.Done? || t.Failed? || t.Cancelled?
    case _ => false
  }

  datatype RunPhase = Fresh | Waiting | Started | Moving | Closed | Illegal

  /** Where a job run stands: its phase, and the status last written to the jobs table. */
  datatype Track = Track(phase: RunPhase, status: Status)

  /** Follows one effect. `Illegal` is where anything out of order ends up: an illegal status
      write, an event whose status was not the one written last, more bytes done than there
      are, an eject of a job that is not done. */
  function Follow(t: Track, e: Effect): Track {
    match e
    case WroteStatus(s) => if CanFollow(t.status, s) then t.(status := s) else t.(phase := Illegal)
    case Ejected => if t.phase.Moving? && t.status.Done? then t else t.(phase := Illegal)
    case Published(topic, status, _, _, live, total) =>
      var next :=
        if status != t.status then Illegal
        else match topic
          case DestMissing => if t.phase.Fresh? && status.Pending? then Waiting else Illegal
          case JobStarted => if t.phase.Fresh? && status.Copying? then Started else Illegal
          case JobProgress =>
            if (t.phase.Started? || t.phase.Moving?) && status.Copying? && live <= total then Moving else Illegal
          case JobCompleted => if t.phase.Moving? && status.Done? then Closed else Illegal
          case JobFailed =>
            if (t.phase.Fresh? || t.phase.Moving?) && (status.Failed? || status.Cancelled?) then Closed else Illegal;
      t.(phase := next)
    case _ => t
  }

  function FollowAll(t: Track, trace: seq<Effect>): Track {
    if trace == [] then t else Follow(FollowAll(t, trace[..|trace| - 1]), trace[|trace| - 1])
  }

  /** A run begins with its job pending. */
  const RUN_START := Track(Fresh, Pending)

  lemma FollowOne(t: Track, trace: seq<Effect>, e: Effect)
    ensures FollowAll(t, trace + [e]) == Follow(FollowAll(t, trace), e)
  {
    assert (trace + [e])[..|trace|] == trace;
  }

  /** Flushing progress keeps a started run going. */
  lemma {:induction false} FollowProgress(t: Track, before: seq<Effect>, after: seq<Effect>)
    requires ProgressAdded(before, after)
    requires var u := FollowAll(t, before); (u.phase.Started? || u.phase.Moving?) && u.status.Copying?
    ensures var u := FollowAll(t, after); (u.phase.Started? || u.phase.Moving?) && u.status.Copying?
    ensures FollowAll(t, before).phase.Moving? ==> FollowAll(t, after).phase.Moving?
  {
    if before != after {
      FollowProgress(t, before, after[..|after| - 1]);
    } 
  }

  /** The numbers a run last wrote to the jobs table: files, bytes and skipped files in all; files and
      bytes copied and files failed so far. */
  datatype Numbers = Numbers(totals: Option<(nat, nat, nat)>, progress: Option<(nat, nat, nat)>)

  function LastWrites(trace: seq<Effect>): Numbers {
    if trace == [] then Numbers(None, None)
    else
      var w := LastWrites(trace[..|trace| - 1]);
      match trace[|trace| - 1]
      case WroteTotals(files, bytes, skipped) => w.(totals := Some((files, bytes, skipped)))
      case WroteProgress(copied, bytes, failed) => w.(progress := Some((copied, bytes, failed)))
      case _ => w
  }

  lemma LastWritesStep(before: seq<Effect>, e: Effect)
    ensures var w := LastWrites(before);
      LastWrites(before + [e]) ==
        match e
        case WroteTotals(files, bytes, skipped) => w.(totals := Some((files, bytes, skipped)))
        case WroteProgress(copied, bytes, failed) => w.(progress := Some((copied, bytes, failed)))
        case _ => w
  {
    assert (before + [e])[..|before|] == before;
  }

  /** Progress leaves the totals alone. */
  lemma {:induction false} ProgressKeepsTotals(before: seq<Effect>, after: seq<Effect>)
    requires ProgressAdded(before, after)
    ensures LastWrites(after).totals == LastWrites(before).totals
  {
    if before != after {
      ProgressKeepsTotals(before, after[..|after| - 1]);
    }
  }

  /** The events published, in order. */
  function Topics(trace: seq<Effect>): seq<Topic> {
    if trace == [] then []
    else
      var e := trace[|trace| - 1];
      Topics(trace[..|trace| - 1]) + (if e.Published? then [e.topic] else [])
  }

  /** JobStarted and then nothing but JobProgress. */
  predicate StartedThenProgress(ts: seq<Topic>) {
    |ts| >= 1 && ts[0] == JobStarted && forall i :: 1 <= i < |ts| ==> ts[i] == JobProgress
  }

  /** What the tracker accepts, spelled out: one of `DestMissing`, `JobFailed`, or
      `JobStarted JobProgress+ (JobCompleted | JobFailed)`. */
  predicate Grammar(ts: seq<Topic>, phase: RunPhase) {
    match phase
    case Fresh => ts == []
    case Waiting => ts == [DestMissing]
    case Started => ts == [JobStarted]
    case Moving => |ts| >= 2 && StartedThenProgress(ts)
    case Closed =>
      || ts == [JobFailed]
      || (|ts| >= 3 && StartedThenProgress(ts[..|ts| - 1])
          && (ts[|ts| - 1] == JobCompleted || ts[|ts| - 1] == JobFailed))
    case Illegal => true
  }

  lemma GrammarStep(ts: seq<Topic>, t: Track, e: Effect)
    requires Grammar(ts, t.phase) && e.Published?
    ensures Grammar(ts + [e.topic], Follow(t, e).phase)
  {
    assert (ts + [e.topic])[..|ts|] == ts;
  }

  lemma {:induction false} TrackerIsGrammar(trace: seq<Effect>)
    ensures Grammar(Topics(trace), FollowAll(RUN_START, trace).phase)
  {
    if trace != [] {
      var before, e := trace[..|trace| - 1], trace[|trace| - 1];
      TrackerIsGrammar(before);
      if e.Published? {
        GrammarStep(Topics(before), FollowAll(RUN_START, before), e);
      }
    }
  }

  /** An accepted run's events carry the status written last before them. */
  lemma {:induction false} EventsMatchStatus(trace: seq<Effect>, i: nat)
    requires FollowAll(RUN_START, trace).phase != Illegal
    requires i < |trace| && trace[i].Published?
    ensures trace[i].jobStatus == FollowAll(RUN_START, trace[..i]).status
    ensures trace[i].topic == JobProgress ==> trace[i].live <= trace[i].total
  {
    var before := trace[..|trace| - 1];
    if i < |before| {
      EventsMatchStatus(before, i);
      assert trace[..i] == before[..i];
    }
  }

  /** The status last written in `trace`, for a job that was pending before. */
  function LastWritten(trace: seq<Effect>): Status {
    if trace == [] then Pending
    else if trace[|trace| - 1].WroteStatus? then trace[|trace| - 1].status
    else LastWritten(trace[..|trace| - 1])
  }

  lemma {:induction false} TrackedStatusIsWritten(trace: seq<Effect>)
    requires FollowAll(RUN_START, trace).phase != Illegal
    ensures FollowAll(RUN_START, trace).status == LastWritten(trace)
  {
    if trace != [] {
      TrackedStatusIsWritten(trace[..|trace| - 1]);
    }
  }

  // ---- and the other way round ------------------------------------------------------------

  /** The statuses an event may carry. */
  predicate Carries(topic: Topic, status: Status) {
    match topic
    case DestMissing => status.Pending?
    case JobStarted => status.Copying?
    case JobProgress => status.Copying?
    case JobCompleted => status.Done?
    case JobFailed => status.Failed? || status.Cancelled?
  }

  /** Statuses are written as the status machine says, every event carries the one written last, and
      the eject comes when the job is done and nobody was told yet. */
  predicate Matching(trace: seq<Effect>) {
    trace == [] ||
    (var before, e := trace[..|trace| - 1], trace[|trace| - 1];
     && Matching(before)
     && match e
        case WroteStatus(s) => CanFollow(LastWritten(before), s)
        case Published(topic, status, _, _, live, total) =>
          status == LastWritten(before) && Carries(topic, status) && (topic.JobProgress? ==> live <= total)
        case Ejected => LastWritten(before).Done? && Grammar(Topics(before), Moving)
        case _ => true)
  }

  /** The phase an event leads to. */
  function PhaseAfter(p: RunPhase, topic: Topic): RunPhase {
    match topic
    case DestMissing => if p.Fresh? then Waiting else Illegal
    case JobStarted => if p.Fresh? then Started else Illegal
    case JobProgress => if p.Started? || p.Moving? then Moving else Illegal
    case JobCompleted => if p.Moving? then Closed else Illegal
    case JobFailed => if p.Fresh? || p.Moving? then Closed else Illegal
  }

  lemma PhaseBefore(ts: seq<Topic>, topic: Topic, p: RunPhase) returns (q: RunPhase)
    requires Grammar(ts + [topic], p) && !p.Illegal?
    ensures !q.Illegal? && Grammar(ts, q) && PhaseAfter(q, topic) == p
  {
    var all := ts + [topic];
    assert all[..|all| - 1] == ts && all[|all| - 1] == topic;
    q := if ts == [] then Fresh else if |ts| == 1 then Started else Moving;
    if |ts| >= 1 {
      assert ts[0] == all[0];
      assert forall i :: 1 <= i < |ts| ==> ts[i] == all[i];
    }
  }

  lemma FollowEvent(t: Track, e: Effect, p: RunPhase)
    requires e.Published? && e.jobStatus == t.status && Carries(e.topic, t.status)
    requires e.topic.JobProgress? ==> e.live <= e.total
    requires PhaseAfter(t.phase, e.topic) == p && !p.Illegal?
    ensures Follow(t, e) == Track(p, t.status)
  {
  }

  /** Every trace of the grammar whose statuses match is accepted. */
  lemma {:induction false} GrammarIsTracked(trace: seq<Effect>, p: RunPhase)
    requires Matching(trace) && Grammar(Topics(trace), p) && !p.Illegal?
    ensures FollowAll(RUN_START, trace) == Track(p, LastWritten(trace))
  {
    if trace != [] {
      var before, e := trace[..|trace| - 1], trace[|trace| - 1];
      if e.Published? {
        var q := PhaseBefore(Topics(before), e.topic, p);
        GrammarIsTracked(before, q);
        FollowEvent(Track(q, LastWritten(before)), e, p);
      } else {
        assert Topics(trace) == Topics(before);
        GrammarIsTracked(before, p);
        if e.Ejected? {
          OnePhase(Topics(before), p, Moving);
        }
      }
    }
  }

  lemma OnePhase(ts: seq<Topic>, p: RunPhase, q: RunPhase)
    requires Grammar(ts, p) && Grammar(ts, q) && !p.Illegal? && !q.Illegal?
    ensures p == q
  {
    if |ts| >= 2 && (p.Closed? || q.Closed?) {
      assert ts[|ts| - 1] != JobProgress;
    }
  }

  /** An accepted run's statuses match. */
  lemma {:induction false} TrackedMatches(trace: seq<Effect>)
    requires !FollowAll(RUN_START, trace).phase.Illegal?
    ensures Matching(trace)
  {
    if trace != [] {
      var before := trace[..|trace| - 1];
      TrackedMatches(before);
      TrackedStatusIsWritten(before);
      TrackerIsGrammar(before);
    }
  }
}
