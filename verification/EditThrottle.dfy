/** Throttling of progress edits: every 10 percent or every 30 seconds. */
module EditThrottle {
  import opened Jobs

  const EDIT_MIN_PCT := 10
  const EDIT_MIN_INTERVAL := 30

  /** History of one start message: when it was delivered, how many edits it got for elapsed
      time and how many for percentage alone, and how its observed progress went. */
  datatype History = History(since: int, timed: nat, jumped: nat, lastSeen: int, monotone: bool)

  /** State of a job's start message. `ref == 0`: not delivered yet. */
  datatype Msg = Msg(ref: int, lastEditAt: int, lastPct: int, past: History)

  const NEW_MSG := Msg(0, 0, 0, History(0, 0, 0, 0, true))

  /** What the dispatcher handles for a job. `active`: a notifier is configured. */
  datatype Event =
    | Started(job: JobId, active: bool)
    | Delivered(job: JobId, ref: int, now: int)
    | Progress(job: JobId, copied: nat, total: nat, now: int, active: bool)
    | Over(job: JobId, active: bool)

  function Percent(copied: nat, total: nat): int {
    if total > 0 then copied * 100 / total else 0
  }

  lemma MoreTimes(q: nat, b: nat, t: nat)
    ensures q > b ==> q * t >= b * t + t
  {
    if q > b {
      assert q * t == b * t + (q - b) * t;
      assert (q - b) * t == t + (q - b - 1) * t;
    }
  }

  lemma QuotientAtMost(x: nat, b: nat, t: nat)
    requires t > 0 && x <= b * t
    ensures x / t <= b
  {
    assert x == (x / t) * t + x % t;
    MoreTimes(x / t, b, t);
  }

  lemma PercentRange(copied: nat, total: nat)
    requires copied <= total
    ensures 0 <= Percent(copied, total) <= 100
  {
    if total > 0 {
      QuotientAtMost(copied * 100, 100, total);
    }
  }

  /** The whole percents: as many as fit. */
  lemma PercentIs(copied: nat, total: nat)
    ensures var p := Percent(copied, total);
      if total == 0 then p == 0 else p * total <= copied * 100 < p * total + total
  {
    if total > 0 {
      var x := copied * 100;
      assert x == (x / total) * total + x % total;
    }
  }

  predicate Edits(m: Msg, pct: int, now: int) {
    m.ref != 0 && (pct - m.lastPct >= EDIT_MIN_PCT || now - m.lastEditAt >= EDIT_MIN_INTERVAL)
  }

  /** The message after a progress observation. */
  function Observed(m: Msg, pct: int, now: int): Msg {
    var past := m.past.(lastSeen := pct, monotone := m.past.monotone && m.past.lastSeen <= pct);
    if !Edits(m, pct, now) then m.(past := past)
    else
      var counted := if now - m.lastEditAt >= EDIT_MIN_INTERVAL
                     then past.(timed := past.timed + 1) else past.(jumped := past.jumped + 1);
      m.(lastEditAt := now, lastPct := pct, past := counted)
  }

  /** The message after the start message went out. */
  function Sent(m: Msg, ref: int, now: int): Msg {
    var past := if m.past.timed + m.past.jumped == 0 then m.past.(since := now) else m.past;
    m.(ref := ref, lastEditAt := now, past := past)
  }

  function Handle(jobs: map<JobId, Msg>, e: Event): map<JobId, Msg> {
    match e
    case Started(j, active) => if active then jobs[j := NEW_MSG] else jobs
    case Delivered(j, ref, now) => if j in jobs then jobs[j := Sent(jobs[j], ref, now)] else jobs
    case Progress(j, copied, total, now, active) =>
      if active && j in jobs then jobs[j := Observed(jobs[j], Percent(copied, total), now)] else jobs
    case Over(j, active) => if active then jobs - {j} else jobs
  }

  function After(events: seq<Event>): map<JobId, Msg> {
    if events == [] then map[] else Handle(After(events[..|events| - 1]), events[|events| - 1])
  }

  /** The edit, if any, that handling event `i` sends out: its message reference. */
  predicate SendsEdit(events: seq<Event>, i: nat, ref: int)
    requires i < |events|
  {
    var e, jobs := events[i], After(events[..i]);
    && e.Progress? && e.active && e.job in jobs
    && Edits(jobs[e.job], Percent(e.copied, e.total), e.now) && ref == jobs[e.job].ref
  }

  // ---- order ------------------------------------------------------------------------------

  /** From `k` on, up to `n`, nobody restarts, re-delivers or ends job `j`. */
  predicate Undisturbed(events: seq<Event>, j: JobId, k: nat, n: nat)
    requires n <= |events|
  {
    forall i :: k <= i < n && events[i].job == j ==>
      events[i].Progress? || (events[i].Over? && !events[i].active) || (events[i].Started? && !events[i].active)
  }

  predicate DeliveredAt(events: seq<Event>, k: nat, j: JobId, ref: int) {
    k < |events| && events[k].Delivered? && events[k].job == j && events[k].ref == ref
  }

  lemma {:induction false} RefWasDelivered(events: seq<Event>, j: JobId)
    requires j in After(events) && After(events)[j].ref != 0
    ensures exists k: nat :: DeliveredAt(events, k, j, After(events)[j].ref) && Undisturbed(events, j, k + 1, |events|)
  {
    var n := |events| - 1;
    var before, e := events[..n], events[n];
    var ref := After(events)[j].ref;
    if e.Delivered? && e.job == j {
      assert DeliveredAt(events, n, j, ref) && Undisturbed(events, j, n + 1, |events|);
    } else {
      RefWasDelivered(before, j);
      var k: nat :| DeliveredAt(before, k, j, ref) && Undisturbed(before, j, k + 1, n);
      assert DeliveredAt(events, k, j, ref);
      forall i | k + 1 <= i < |events| && events[i].job == j
        ensures events[i].Progress? || (events[i].Over? && !events[i].active)
             || (events[i].Started? && !events[i].active)
      {
        if i < n {
          assert before[i] == events[i];
        }
      }
    }
  }

  /** No edit precedes the delivery of the start message it edits, or follows the handling of
      the job's end. */
  lemma EditsComeInBetween(events: seq<Event>, i: nat, ref: int)
    requires i < |events| && SendsEdit(events, i, ref)
    ensures ref != 0
    ensures exists k: nat :: k < i && DeliveredAt(events, k, events[i].job, ref)
                     && Undisturbed(events, events[i].job, k + 1, i)
  {
    var j, before := events[i].job, events[..i];
    RefWasDelivered(before, j);
    var k: nat :| DeliveredAt(before, k, j, ref) && Undisturbed(before, j, k + 1, i);
    forall x | k + 1 <= x < i && events[x].job == j
      ensures events[x].Progress? || (events[x].Over? && !events[x].active) || (events[x].Started? && !events[x].active)
    {
      assert before[x] == events[x];
    }
    assert DeliveredAt(events, k, j, ref) && Undisturbed(events, j, k + 1, i);
  }

  /** Nobody ends job `j` from event `k` on. */
  predicate GoesOn(events: seq<Event>, j: JobId, k: nat) {
    forall i :: k <= i < |events| && events[i].job == j ==> !(events[i].Over? && events[i].active)
  }

  lemma {:induction false} StartedIsKnown(events: seq<Event>, j: JobId, k: nat)
    requires k < |events| && events[k] == Started(j, true) && GoesOn(events, j, k)
    ensures j in After(events)
  {
    var n := |events| - 1;
    if k < n {
      assert events[..n][k] == events[k];
      assert GoesOn(events[..n], j, k) by {
        forall i | k <= i < n && events[..n][i].job == j
          ensures !(events[..n][i].Over? && events[..n][i].active)
        {
          assert events[..n][i] == events[i];
        }
      }
      StartedIsKnown(events[..n], j, k);
    }
  }

  /** Once the start message of a job is delivered, and until the job ends or starts again, it is the one to edit. */
  lemma {:induction false} DeliveredIsKnown(events: seq<Event>, j: JobId, k: nat, ref: int)
    requires DeliveredAt(events, k, j, ref) && Undisturbed(events, j, k + 1, |events|) && j in After(events[..k])
    ensures j in After(events) && After(events)[j].ref == ref
  {
    var n := |events| - 1;
    if k < n {
      assert DeliveredAt(events[..n], k, j, ref) && events[..n][..k] == events[..k];
      forall i | k + 1 <= i < n && events[..n][i].job == j
        ensures events[..n][i].Progress? || (events[..n][i].Over? && !events[..n][i].active)
             || (events[..n][i].Started? && !events[..n][i].active)
      {
        assert events[..n][i] == events[i];
      }
      DeliveredIsKnown(events[..n], j, k, ref);
      assert events[n].job == j ==> events[n].Progress? || !events[n].active;
    }
  }

  /** Event `k` delivers or edits the start message of job `j`. */
  predicate Shows(events: seq<Event>, k: nat, j: JobId) {
    k < |events| && events[k].job == j && (events[k].Delivered? || IsEdit(events, k, j))
  }

  predicate IsEdit(events: seq<Event>, k: nat, j: JobId) {
    && k < |events| && events[k].job == j && events[k].Progress?
    && var jobs := After(events[..k]);
       j in jobs && SendsEdit(events, k, jobs[j].ref)
  }

  /** What the message state remembers: when the message was last shown, and at what percentage. */
  ghost predicate Remembers(events: seq<Event>, j: JobId, m: Msg) {
    && (m.ref != 0 ==> exists k: nat :: Shows(events, k, j) && TimeOf(events[k]) == m.lastEditAt)
    && (m.lastPct != 0 ==>
          exists k: nat :: IsEdit(events, k, j) && Percent(events[k].copied, events[k].total) == m.lastPct)
  }

  lemma ShowsLater(events: seq<Event>, k: nat, j: JobId)
    requires events != [] && k < |events| - 1
    ensures Shows(events[..|events| - 1], k, j) ==> Shows(events, k, j)
    ensures IsEdit(events[..|events| - 1], k, j) ==> IsEdit(events, k, j)
  {
    assert events[..|events| - 1][..k] == events[..k];
  }

  lemma RemembersLater(events: seq<Event>, j: JobId, m: Msg)
    requires events != [] && Remembers(events[..|events| - 1], j, m)
    ensures Remembers(events, j, m)
  {
    var before := events[..|events| - 1];
    if m.ref != 0 {
      var k: nat :| Shows(before, k, j) && TimeOf(before[k]) == m.lastEditAt;
      ShowsLater(events, k, j);
      assert TimeOf(events[k]) == m.lastEditAt;
    }
    if m.lastPct != 0 {
      var k: nat :| IsEdit(before, k, j) && Percent(before[k].copied, before[k].total) == m.lastPct;
      ShowsLater(events, k, j);
      assert Percent(events[k].copied, events[k].total) == m.lastPct;
    }
  }

  lemma {:induction false} AllRemember(events: seq<Event>, j: JobId)
    requires j in After(events)
    ensures Remembers(events, j, After(events)[j])
  {
    var n := |events| - 1;
    var before, e, m := events[..n], events[n], After(events)[j];
    if j in After(before) {
      AllRemember(before, j);
      var was := After(before)[j];
      RemembersLater(events, j, was);
      if e.Delivered? && e.job == j {
        assert Shows(events, n, j) && TimeOf(events[n]) == m.lastEditAt;
      } else if IsEdit(events, n, j) {
        assert Shows(events, n, j) && TimeOf(events[n]) == m.lastEditAt;
        assert Percent(e.copied, e.total) == m.lastPct;
      }
    }
  }

  /** The message of a running job never falls behind: after each observation of its progress, it was
      delivered or edited less than 30 seconds ago, and shows less than ten percent less. */
  lemma NeverStale(events: seq<Event>, i: nat)
    requires i < |events| && events[i].Progress? && events[i].active
    requires var jobs := After(events[..i]); events[i].job in jobs && jobs[events[i].job].ref != 0
    ensures var e := events[i];
      var j, pct := e.job, Percent(e.copied, e.total);
      && (exists k: nat :: k <= i && Shows(events, k, j) && e.now - TimeOf(events[k]) < 30)
      && (pct < 10 || exists k: nat :: k <= i && IsEdit(events, k, j)
                                       && pct - Percent(events[k].copied, events[k].total) < 10)
  {
    var e, upTo := events[i], events[..i];
    var m := After(upTo)[e.job];
    var pct := Percent(e.copied, e.total);
    if SendsEdit(events, i, m.ref) {
      assert IsEdit(events, i, e.job) && Shows(events, i, e.job);
    } else {
      AllRemember(upTo, e.job);
      var k: nat :| Shows(upTo, k, e.job) && TimeOf(upTo[k]) == m.lastEditAt;
      assert upTo[..k] == events[..k];
      assert Shows(events, k, e.job) && e.now - TimeOf(events[k]) < 30;
      if pct >= 10 {
        var l: nat :| IsEdit(upTo, l, e.job) && Percent(upTo[l].copied, upTo[l].total) == m.lastPct;
        assert upTo[..l] == events[..l];
        assert IsEdit(events, l, e.job) && pct - Percent(events[l].copied, events[l].total) < 10;
      }
    }
  }

  // ---- number -----------------------------------------------------------------------------

  predicate HasTime(e: Event) { e.Delivered? || e.Progress? }

  function TimeOf(e: Event): int
    requires HasTime(e)
  {
    e.now
  }

  /** Clocks do not run backwards, nothing happens after `end`, and progress stays within the
      total. */
  predicate Plausible(events: seq<Event>, end: int) {
    && (forall i :: 0 <= i < |events| && HasTime(events[i]) ==> TimeOf(events[i]) <= end)
    && (forall i, k :: 0 <= i < k < |events| && HasTime(events[i]) && HasTime(events[k]) ==>
          TimeOf(events[i]) <= TimeOf(events[k]))
    && (forall i :: 0 <= i < |events| && events[i].Progress? ==> events[i].copied <= events[i].total)
  }

  /** Each timed edit uses up 30 seconds. Each other edit raises the percentage last shown by
      10, which only a timed edit can lower, and by at most 100. */
  predicate Paid(m: Msg, now: int) {
    && 0 <= m.lastPct <= 100
    && (m.ref != 0 || m.past.timed + m.past.jumped > 0 ==> m.lastEditAt <= now)
    && EDIT_MIN_INTERVAL * m.past.timed <= m.lastEditAt - m.past.since
    && EDIT_MIN_PCT * m.past.jumped <= m.lastPct + 100 * m.past.timed
    && (m.past.monotone ==> m.lastPct <= m.past.lastSeen && EDIT_MIN_PCT * m.past.jumped <= m.lastPct)
  }

  lemma ObservedPaid(m: Msg, pct: int, was: int, now: int)
    requires Paid(m, was) && 0 <= pct <= 100 && was <= now
    ensures Paid(Observed(m, pct, now), now)
  {
  }

  lemma {:induction false} EveryMsgPaid(events: seq<Event>, end: int, j: JobId)
    requires Plausible(events, end) && j in After(events)
    ensures Paid(After(events)[j], end)
  {
    var n := |events| - 1;
    var before, e := events[..n], events[n];
    var was := if HasTime(e) then e.now else end;
    assert Plausible(before, was) by {
      forall i | 0 <= i < |before| && HasTime(before[i]) ensures TimeOf(before[i]) <= was {
        assert before[i] == events[i];
      }
    }
    if j in After(before) {
      EveryMsgPaid(before, was, j);
      if e.Progress? && e.job == j {
        PercentRange(e.copied, e.total);
        ObservedPaid(After(before)[j], Percent(e.copied, e.total), was, e.now);
      }
    }
  }

  /** Bounds on the edits of one start message: at most one timed edit per 30 seconds since
      delivery, at most 10 others plus 10 per timed edit however progress moves, and at most
      10 plus one per 30 seconds in all if progress never falls. */
  lemma EditBound(events: seq<Event>, end: int, j: JobId)
    requires Plausible(events, end) && j in After(events) && After(events)[j].ref != 0
    ensures var past := After(events)[j].past;
      && EDIT_MIN_INTERVAL * past.timed <= end - past.since
      && past.jumped <= 10 + 10 * past.timed
      && (past.monotone ==> past.timed + past.jumped <= 10 + (end - past.since) / EDIT_MIN_INTERVAL)
  {
    EveryMsgPaid(events, end, j);
  }

  /** Every edit sent is counted, and nothing else is. */
  lemma EditsAreCounted(events: seq<Event>, i: nat)
    requires i < |events| && events[i].Progress? && events[i].job in After(events[..i])
    ensures events[i].job in After(events[..i + 1])
    ensures var j := events[i].job;
      var m, n := After(events[..i])[j].past, After(events[..i + 1])[j].past;
      n.timed + n.jumped == m.timed + m.jumped + (if exists ref :: SendsEdit(events, i, ref) then 1 else 0)
  {
    assert events[..i + 1][..i] == events[..i];
    var m := After(events[..i])[events[i].job];
    assert SendsEdit(events, i, m.ref) || forall ref :: !SendsEdit(events, i, ref);
  }

  // ---- the dispatcher ---------------------------------------------------------------------

  class Dispatcher {
    var jobs: map<JobId, Msg>

    constructor ()
      ensures jobs == After([])
    {
      jobs := map[];
    }

    /** JobStarted is handled: a fresh message state. */
    method JobStarted(j: JobId)
      modifies this
      ensures jobs == Handle(old(jobs), Started(j, true))
    {
      jobs := jobs[j := NEW_MSG];
    }

    /** The queue got the start message through. */
    method StartDelivered(j: JobId, ref: int, now: int)
      modifies this
      ensures jobs == Handle(old(jobs), Delivered(j, ref, now))
    {
      if j in jobs {
        jobs := jobs[j := Sent(jobs[j], ref, now)];
      }
    }

    /** Whether to edit the start message now, and its reference. */
    method ShouldEdit(j: JobId, copied: nat, total: nat, now: int) returns (ref: int, ok: bool)
      modifies this
      ensures jobs == Handle(old(jobs), Progress(j, copied, total, now, true))
      ensures ok <==> j in old(jobs) && Edits(old(jobs)[j], Percent(copied, total), now)
      ensures ref == if ok then old(jobs)[j].ref else 0
    {
      if j !in jobs {
        return 0, false;
      }
      var st := jobs[j];
      var pct := 0;
      if total > 0 {
        pct := copied * 100 / total;
      }
      var past := st.past.(lastSeen := pct, monotone := st.past.monotone && st.past.lastSeen <= pct);
      jobs := jobs[j := st.(past := past)];
      if st.ref == 0 || (pct - st.lastPct < EDIT_MIN_PCT && now - st.lastEditAt < EDIT_MIN_INTERVAL) {
        return 0, false;
      }
      if now - st.lastEditAt < EDIT_MIN_INTERVAL {
        past := past.(jumped := past.jumped + 1);
      } else {
        past := past.(timed := past.timed + 1);
      }
      jobs := jobs[j := Msg(st.ref, now, pct, past)];
      return st.ref, true;
    }

    /** Completion or failure is handled: the message state is handed over. */
    method TakeState(j: JobId) returns (ref: int)
      modifies this
      ensures jobs == Handle(old(jobs), Over(j, true))
      ensures ref == if j in old(jobs) then old(jobs)[j].ref else 0
    {
      ref := 0;
      if j in jobs {
        ref := jobs[j].ref;
      }
      jobs := jobs - {j};
    }
  }
}
