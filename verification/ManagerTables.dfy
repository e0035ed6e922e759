/** The three maps of the job manager and its critical sections. */
module ManagerTables {
  import opened Text
  import opened Jobs

  type GoId = nat
  type Guid = string
  type Serial = string

  /** Everything needed to (re)start a job later. */
  datatype QueuedJob = QueuedJob(job: JobId, guid: Guid, serial: Serial)

  /** A registered job and the goroutine running it, by which it is cancelled. */
  datatype RunningJob = RunningJob(job: JobId, go: GoId)

  datatype Tables = Tables(byGUID: map<Guid, RunningJob>, blocked: map<JobId, QueuedJob>,
                           awaiting: map<Serial, QueuedJob>)

  /** A volume with an admitted, blocked or awaiting job. A job waiting for the semaphore is in
      none of the maps. */
  predicate Tracked(t: Tables, guid: Guid) {
    || guid in t.byGUID
    || (exists j :: j in t.blocked && t.blocked[j].guid == guid)
    || (exists s :: s in t.awaiting && t.awaiting[s].guid == guid)
  }

  /** `b` is some blocked job of the volume, if it has one. */
  predicate PicksBlocked(t: Tables, guid: Guid, b: Option<JobId>) {
    match b
    case Some(j) => j in t.blocked && t.blocked[j].guid == guid
    case None => forall j :: j in t.blocked ==> t.blocked[j].guid != guid
  }

  /** `a` is the serial of some awaiting job of the volume, if it has one. */
  predicate PicksAwaiting(t: Tables, guid: Guid, a: Option<Serial>) {
    match a
    case Some(s) => s in t.awaiting && t.awaiting[s].guid == guid
    case None => forall s :: s in t.awaiting ==> t.awaiting[s].guid != guid
  }

  function DropBlocked(t: Tables, b: Option<JobId>): Tables {
    match b case None => t case Some(j) => t.(blocked := t.blocked - {j})
  }

  function DropAwaiting(t: Tables, a: Option<Serial>): Tables {
    match a case None => t case Some(s) => t.(awaiting := t.awaiting - {s})
  }

  /** The runner's own removal: the volume's entry goes, whoever's it is; a job without
      destination is parked. */
  function Unregistered(t: Tables, q: QueuedJob, parks: bool): Tables {
    t.(byGUID := t.byGUID - {q.guid}, blocked := if parks then t.blocked[q.job := q] else t.blocked)
  }

  /** `order` lists the blocked jobs, each once. */
  predicate Lists(order: seq<QueuedJob>, blocked: map<JobId, QueuedJob>) {
    && (forall i :: 0 <= i < |order| ==> order[i].job in blocked && blocked[order[i].job] == order[i])
    && (forall i, k :: 0 <= i < k < |order| ==> order[i].job != order[k].job)
    && (forall j :: j in blocked ==> blocked[j] in order)
  }

  /** Where Cancel finds a job. */
  datatype Found = AsRunning(go: GoId) | AsBlocked | AsAwaiting(serial: Serial) | NotActive

  /** Running jobs are looked for first, then blocked, then awaiting ones. */
  predicate IsFound(t: Tables, j: JobId, f: Found) {
    match f
    case AsRunning(go) => exists g :: g in t.byGUID && t.byGUID[g] == RunningJob(j, go)
    case AsBlocked => NotRunning(t, j) && j in t.blocked
    case AsAwaiting(s) => NotRunning(t, j) && j !in t.blocked && s in t.awaiting && t.awaiting[s].job == j
    case NotActive => NotRunning(t, j) && j !in t.blocked && forall s :: s in t.awaiting ==> t.awaiting[s].job != j
  }

  predicate NotRunning(t: Tables, j: JobId) {
    forall g :: g in t.byGUID ==> t.byGUID[g].job != j
  }

  /** The manager's critical sections; each method is one hold of the mutex. */
  class Manager {
    var byGUID: map<Guid, RunningJob>
    var blocked: map<JobId, QueuedJob>
    var awaiting: map<Serial, QueuedJob>

    function View(): Tables
      reads this
    {
      Tables(byGUID, blocked, awaiting)
    }

    /** Blocked jobs are filed under their own ids. */
    predicate Filed()
      reads this
    {
      forall j :: j in blocked ==> blocked[j].job == j
    }

    constructor ()
      ensures View() == Tables(map[], map[], map[]) && Filed()
    {
      byGUID, blocked, awaiting := map[], map[], map[];
    }

    method IsTracked(guid: Guid) returns (yes: bool)
      ensures yes <==> Tracked(View(), guid)
    {
      if guid in byGUID {
        return true;
      }
      var b := FindBlocked(guid);
      if b.Some? {
        return true;
      }
      var a := FindAwaiting(guid);
      yes := a.Some?;
    }

    method FindBlocked(guid: Guid) returns (b: Option<JobId>)
      ensures PicksBlocked(View(), guid, b)
    {
      var todo := blocked.Keys;
      while todo != {}
        invariant todo <= blocked.Keys
        invariant forall j :: j in blocked && j !in todo ==> blocked[j].guid != guid
        decreases todo
      {
        var j :| j in todo;
        if blocked[j].guid == guid {
          return Some(j);
        }
        todo := todo - {j};
      }
      b := None;
    }

    method FindAwaiting(guid: Guid) returns (a: Option<Serial>)
      ensures PicksAwaiting(View(), guid, a)
    {
      var todo := awaiting.Keys;
      while todo != {}
        invariant todo <= awaiting.Keys
        invariant forall s :: s in awaiting && s !in todo ==> awaiting[s].guid != guid
        decreases todo
      {
        var s :| s in todo;
        if awaiting[s].guid == guid {
          return Some(s);
        }
        todo := todo - {s};
      }
      a := None;
    }

    method PutAwaiting(q: QueuedJob)
      modifies this`awaiting
      ensures View() == old(View()).(awaiting := old(awaiting)[q.serial := q])
    {
      awaiting := awaiting[q.serial := q];
    }

    method Register(q: QueuedJob, go: GoId)
      modifies this`byGUID
      ensures View() == old(View()).(byGUID := old(byGUID)[q.guid := RunningJob(q.job, go)])
    {
      byGUID := byGUID[q.guid := RunningJob(q.job, go)];
    }

    method Unregister(q: QueuedJob, parks: bool)
      requires Filed()
      modifies this
      ensures Filed() && View() == Unregistered(old(View()), q, parks)
    {
      byGUID := byGUID - {q.guid};
      if parks {
        blocked := blocked[q.job := q];
      }
    }

    /** retryBlocked's snapshot, in no particular order. */
    method SnapshotBlocked() returns (order: seq<QueuedJob>)
      requires Filed()
      ensures Lists(order, blocked)
    {
      order := [];
      var todo := blocked.Keys;
      while todo != {}
        invariant todo <= blocked.Keys
        invariant forall i :: 0 <= i < |order| ==>
                    order[i].job in blocked && order[i].job !in todo && blocked[order[i].job] == order[i]
        invariant forall i, k :: 0 <= i < k < |order| ==> order[i].job != order[k].job
        invariant forall j :: j in blocked && j !in todo ==> blocked[j] in order
        decreases todo
      {
        var j :| j in todo;
        todo := todo - {j};
        order := order + [blocked[j]];
      }
    }

    method DeleteBlocked(j: JobId)
      requires Filed()
      modifies this`blocked
      ensures Filed() && View() == DropBlocked(old(View()), Some(j))
    {
      blocked := blocked - {j};
    }

    /** handleDetach: the volume's running job, and one blocked and one awaiting job of it taken
        out. */
    method TakeDetached(guid: Guid) returns (run: Option<RunningJob>, b: Option<JobId>, a: Option<Serial>)
      requires Filed()
      modifies this
      ensures Filed() && run == if guid in old(byGUID) then Some(old(byGUID)[guid]) else None
      ensures PicksBlocked(old(View()), guid, b) && PicksAwaiting(old(View()), guid, a)
      ensures View() == DropAwaiting(DropBlocked(old(View()), b), a)
    {
      run := if guid in byGUID then Some(byGUID[guid]) else None;
      b := FindBlocked(guid);
      a := FindAwaiting(guid);
      if b.Some? {
        blocked := blocked - {b.value};
      }
      if a.Some? {
        awaiting := awaiting - {a.value};
      }
    }

    /** handleDecision: takes the question out. */
    method TakeDecided(s: Serial) returns (q: Option<QueuedJob>)
      modifies this`awaiting
      ensures q == if s in old(awaiting) then Some(old(awaiting)[s]) else None
      ensures View() == DropAwaiting(old(View()), if s in old(awaiting) then Some(s) else None)
    {
      q := if s in awaiting then Some(awaiting[s]) else None;
      if q.Some? {
        awaiting := awaiting - {s};
      }
    }

    /** Cancel: where the job is, and takes it out unless it is running. */
    method TakeCancelled(j: JobId) returns (f: Found)
      requires Filed()
      modifies this
      ensures Filed() && IsFound(old(View()), j, f)
      ensures View() == match f
                case AsBlocked => DropBlocked(old(View()), Some(j))
                case AsAwaiting(s) => DropAwaiting(old(View()), Some(s))
                case _ => old(View())
    {
      var gs := byGUID.Keys;
      while gs != {}
        invariant gs <= byGUID.Keys && View() == old(View())
        invariant forall g :: g in byGUID && g !in gs ==> byGUID[g].job != j
        decreases gs
      {
        var g :| g in gs;
        if byGUID[g].job == j {
          return AsRunning(byGUID[g].go);
        }
        gs := gs - {g};
      }
      if j in blocked {
        blocked := blocked - {j};
        return AsBlocked;
      }
      var ss := awaiting.Keys;
      while ss != {}
        invariant ss <= awaiting.Keys && View() == old(View())
        invariant forall s :: s in awaiting && s !in ss ==> awaiting[s].job != j
        decreases ss
      {
        var s :| s in ss;
        if awaiting[s].job == j {
          awaiting := awaiting - {s};
          return AsAwaiting(s);
        }
        ss := ss - {s};
      }
      f := NotActive;
    }
  }
}
