/** What the manager's moves come to, step after step: what follows a Create, an operator's answer, a detach,
    a Cancel, and the end of a run. */
module ManagerLaws {
  import opened Text
  import opened Jobs
  import opened ManagerTables
  import opened JobEvents
  import opened ManagerProtocol

  /** A card to ask about gets an open question, and nothing runs. */
  lemma AskingAsks(s: State, guid: Guid, serial: Serial)
    requires Enabled(s, Create(guid, serial, true))
    ensures var t := Step(s, Create(guid, serial, true));
      && t.rows == s.rows[s.nextJob := AwaitingDecision] && t.gos == s.gos
      && Enabled(t, FileQuestion)
      && var u := Step(t, FileQuestion);
         && u.rows == t.rows && u.gos == s.gos && u.loop.Idle?
         && u.t.awaiting == s.t.awaiting[serial := QueuedJob(s.nextJob, guid, serial)]
  {
  }

  /** Any other card's job is pending, and gets its goroutine. */
  lemma AdmittingAdmits(s: State, guid: Guid, serial: Serial)
    requires Enabled(s, Create(guid, serial, false))
    ensures var t := Step(s, Create(guid, serial, false));
      && t.rows == s.rows[s.nextJob := Pending] && t.t == s.t
      && Enabled(t, Admit)
      && var u := Step(t, Admit);
         && u.rows == t.rows && u.t == s.t
         && u.gos == s.gos[s.nextGo := Go(QueuedJob(s.nextJob, guid, serial), Queueing,
                                          if s.down then Some(Shutdown) else None)]
  {
  }

  /** The operator says copy: the job becomes pending and gets its goroutine, and no other row changes. */
  lemma CopyAnswerAdmits(s: State, x: Serial)
    requires AwaitingOk(s) && Enabled(s, Decide(x, true))
    ensures var j, t := s.t.awaiting[x].job, Step(s, Decide(x, true));
      && t.rows == s.rows && x !in t.t.awaiting && Enabled(t, DecideWrite)
      && var u := Step(t, DecideWrite);
         && u.rows == s.rows[j := Pending] && Enabled(u, Admit)
         && var v := Step(u, Admit);
            && v.rows == u.rows
            && s.nextGo in v.gos && v.gos[s.nextGo].q == s.t.awaiting[x] && v.gos[s.nextGo].stage.Queueing?
  {
  }

  /** The operator says anything else: the job is cancelled and gone, and no other row changes. */
  lemma OtherAnswerCancels(s: State, x: Serial)
    requires AwaitingOk(s) && Enabled(s, Decide(x, false))
    ensures var j, t := s.t.awaiting[x].job, Step(s, Decide(x, false));
      && t.rows == s.rows && x !in t.t.awaiting && Enabled(t, Settle)
      && var u := Step(t, Settle);
         u.rows == s.rows[j := Cancelled] && u.loop.Idle? && u.gos == s.gos && u.t == t.t && u.at[j].Gone?
  {
  }

  /** A listed job's turn: it leaves `blocked`, no row changes, and it gets a goroutine. */
  lemma RetryAdmits(s: State)
    requires Enabled(s, RetryNext)
    ensures var q, t := s.loop.todo[0], Step(s, RetryNext);
      && t.rows == s.rows && t.t.blocked == s.t.blocked - {q.job} && Enabled(t, Admit)
      && var u := Step(t, Admit);
         && u.rows == s.rows && u.t == t.t && u.loop == Retrying(s.loop.todo[1..])
         && u.gos == s.gos[s.nextGo := Go(q, Queueing, if s.down then Some(Shutdown) else None)]
  {
  }

  lemma TakesBlocked(s: State, b: Option<JobId>)
    requires s.loop.Idle?
    ensures var t := if b.Some? then LoopTakesBlocked(s, b.value) else s;
      && t.rows == s.rows && t.t.awaiting == s.t.awaiting
      && t.t.blocked == s.t.blocked - (if b.Some? then {b.value} else {})
      && t.loop == if b.Some? then Closing(Write(b.value, Failed), None) else Idle
  {
  }

  lemma TakesAwaiting(s: State, x: Serial, q: QueuedJob)
    requires s.loop.Idle? || (s.loop.Closing? && s.loop.next.None?)
    ensures var t := LoopTakesAwaiting(s, x, q);
      && t.rows == s.rows && t.t.awaiting == s.t.awaiting - {x} && t.t.blocked == s.t.blocked
      && t.loop == if s.loop.Idle? then Closing(Write(q.job, Cancelled), None)
                   else Closing(s.loop.now, Some(Write(q.job, Cancelled)))
  {
  }

  /** A card leaves: its blocked job is to fail, its question to be cancelled, both out of the maps; no row
      changes yet. */
  lemma DetachTakes(s: State, guid: Guid, b: Option<JobId>, a: Option<Serial>)
    requires Enabled(s, Detach(guid, b, a))
    ensures var t := Step(s, Detach(guid, b, a));
      && t.rows == s.rows
      && t.t.blocked == s.t.blocked - (if b.Some? then {b.value} else {})
      && t.t.awaiting == s.t.awaiting - (if a.Some? then {a.value} else {})
      && t.loop == var asked := if a.Some? then Some(Write(s.t.awaiting[a.value].job, Cancelled)) else None;
                   if b.Some? then Closing(Write(b.value, Failed), asked)
                   else if asked.Some? then Closing(asked.value, None) else Idle
  {
    var s1 := if guid in s.t.byGUID then s.(gos := Fire(s.gos, s.t.byGUID[guid].go, CardRemoved)) else s;
    var s2 := if b.Some? then LoopTakesBlocked(s1, b.value) else s1;
    TakesBlocked(s1, b);
    if a.Some? {
      TakesAwaiting(s2, a.value, s2.t.awaiting[a.value]);
    }
  }

  /** The loop writes what it has to write, one row at a time, and that is the end of each job. */
  lemma SettleWrites(s: State, w: Write, next: Option<Write>)
    requires s.loop == Closing(w, next)
    ensures Enabled(s, Settle)
    ensures var t := Step(s, Settle);
      && t.rows == s.rows[w.job := w.status] && t.t == s.t && t.gos == s.gos
      && w.job in t.at && t.at[w.job].Gone?
      && t.loop == if next.Some? then Closing(next.value, None) else Idle
  {
  }

  lemma DetachFires(s: State, guid: Guid, b: Option<JobId>, a: Option<Serial>)
    ensures DoDetach(s, guid, b, a).gos ==
              if guid in s.t.byGUID then Fire(s.gos, s.t.byGUID[guid].go, CardRemoved) else s.gos
  {
    var s1 := if guid in s.t.byGUID then s.(gos := Fire(s.gos, s.t.byGUID[guid].go, CardRemoved)) else s;
    var s2 := if b.Some? then LoopTakesBlocked(s1, b.value) else s1;
    assert s2.gos == s1.gos && DoDetach(s, guid, b, a).gos == s2.gos;
  }

  /** Its registered run, and no other, is cancelled for that reason, unless it was cancelled before. */
  lemma DetachStopsRun(s: State, guid: Guid, b: Option<JobId>, a: Option<Serial>, g: GoId)
    requires Enabled(s, Detach(guid, b, a)) && g in s.gos
    ensures var t := Step(s, Detach(guid, b, a));
      g in t.gos
      && t.gos[g] == s.gos[g].(cause := if s.gos[g].cause.None? && guid in s.t.byGUID && s.t.byGUID[guid].go == g
                                        then Some(CardRemoved) else s.gos[g].cause)
  {
    DetachFires(s, guid, b, a);
  }

  /** A Cancel that finds a job in `blocked` or `awaiting` takes it out and ends it as cancelled. */
  lemma CancelEnds(s: State, j: JobId, f: Found)
    requires AwaitingOk(s) && BlockedOk(s) && Enabled(s, Cancel(j, f)) && (f.AsBlocked? || f.AsAwaiting?)
    ensures var t := Step(s, Cancel(j, f));
      && t.rows == s.rows && IsFound(t.t, j, NotActive) && Enabled(t, CancelWrite(j))
      && var u := Step(t, CancelWrite(j)); u.rows == s.rows[j := Cancelled] && u.t == t.t
  {
  }

  /** A Cancel that finds a run cancels its context, and changes nothing else. */
  lemma CancelStopsRun(s: State, j: JobId, g: GoId)
    requires ByGUIDOk(s) && Enabled(s, Cancel(j, AsRunning(g)))
    ensures g in s.gos && s.gos[g].q.job == j
    ensures var cause := s.gos[g].cause;
      Step(s, Cancel(j, AsRunning(g))) ==
        s.(gos := s.gos[g := s.gos[g].(cause := if cause.None? then Some(UserCancelled) else cause)])
  {
  }

  /** A run that missed its destination leaves its job blocked, pending unless revived; any other leaves it
      in no map, and over. */
  lemma RunLeaves(s: State, g: GoId)
    requires Inv(s) && Enabled(s, Unregister(g))
    ensures var q, t := s.gos[g].q, Step(s, Unregister(g));
      && t.rows == s.rows && q.job in s.rows
      && t.t.byGUID == s.t.byGUID - {q.guid}
      && t.t.blocked == (if s.gos[g].stage.parks then s.t.blocked[q.job := q] else s.t.blocked)
      && (if s.gos[g].stage.parks then s.rows[q.job].Pending? || q.job in s.revived else s.rows[q.job].Terminal())
  {
    assert JobOk(s, s.gos[g].q.job);
  }
}
