/** The whole run of one job, and what any sequence of runs on a card adds up to. */
module IngestRun {
  import opened Text
  import opened Jobs
  import opened Names
  import opened CopyProtocol
  import opened DestVolume
  import opened Streaming
  import opened JobEvents
  import opened Progress
  import opened Copier
  import opened Dedup
  import opened JobRunner

  /** Positions in the scan of the files copied: `done` are positions in the copy list. */
  function Compose(origin: seq<nat>, done: seq<nat>): (r: seq<nat>)
    requires forall i :: 0 <= i < |done| ==> done[i] < |origin|
  {
    seq(|done|, i requires 0 <= i < |done| => origin[done[i]])
  }

  /** The files copied were in nobody's index when the run began. */
  predicate NoneIndexed(h: Bytes -> Hash, card: Card, rows: seq<Row>, entries: seq<FileEntry>, copied: seq<nat>) {
    forall i :: 0 <= i < |copied| ==> copied[i] < |entries| && !Indexed(h, card, rows, entries[copied[i]])
  }

  lemma KeptNotIndexed(h: Bytes -> Hash, card: Card, entries: seq<FileEntry>, views: seq<seq<Row>>,
                       origin: seq<nat>, toCopy: seq<FileEntry>, low: seq<Row>, high: seq<Row>, k: nat)
    requires IsPlan(h, card, entries, views, origin, toCopy) && Between(views, low, high) && k < |toCopy|
    ensures !Indexed(h, card, low, entries[origin[k]])
  {
    assert Decided(h, card, views[origin[k]], entries[origin[k]], Some(toCopy[k]));
    if Indexed(h, card, low, entries[origin[k]]) {
      IndexedGrows(h, card, low, views[origin[k]], entries[origin[k]]);
    }
  }

  lemma SameKey(h: Bytes -> Hash, honest: bool, s: State, j: JobId, p: Path, e: FileEntry, f: FileEntry,
                content: Bytes)
    requires e.size == f.size && e.mtime == f.mtime && Ingested(h, honest, s, j, p, e, content)
    ensures Ingested(h, honest, s, j, p, f, content)
  {
  }

  lemma {:induction false} SizeComposed(entries: seq<FileEntry>, origin: seq<nat>, toCopy: seq<FileEntry>,
                                        done: seq<nat>)
    requires |origin| == |toCopy| && forall i :: 0 <= i < |done| ==> done[i] < |toCopy|
    requires forall k :: 0 <= k < |toCopy| ==> origin[k] < |entries| && entries[origin[k]].size == toCopy[k].size
    ensures SizeOf(entries, Compose(origin, done)) == SizeOf(toCopy, done)
  {
    if done != [] {
      var c := Compose(origin, done);
      assert c[..|c| - 1] == Compose(origin, done[..|done| - 1]);
      SizeComposed(entries, origin, toCopy, done[..|done| - 1]);
    }
  }

  /** What landed from the copy list, said of the scan. */
  lemma LandedFromPlan(h: Bytes -> Hash, honest: bool, s: State, j: JobId, card: Card, entries: seq<FileEntry>,
                       views: seq<seq<Row>>, origin: seq<nat>, toCopy: seq<FileEntry>, low: seq<Row>, high: seq<Row>,
                       done: seq<nat>, dsts: seq<Path>, recorded: seq<bool>)
    requires IsPlan(h, card, entries, views, origin, toCopy) && Between(views, low, high)
    requires Landed(h, honest, s, j, card, toCopy, done, dsts, recorded)
    ensures var copied := Compose(origin, done);
      && Landed(h, honest, s, j, card, entries, copied, dsts, recorded)
      && NoneIndexed(h, card, low, entries, copied)
      && SizeOf(entries, copied) == SizeOf(toCopy, done)
  {
    var copied := Compose(origin, done);
    forall k | 0 <= k < |toCopy|
      ensures toCopy[k] == entries[origin[k]].(knownHash := toCopy[k].knownHash)
    {
      assert Decided(h, card, views[origin[k]], entries[origin[k]], Some(toCopy[k]));
    }
    SizeComposed(entries, origin, toCopy, done);
    forall i | 0 <= i < |done|
      ensures Ingested(h, honest, s, j, dsts[i], entries[copied[i]], card(entries[copied[i]].src))
      ensures recorded[i] ==> Indexed(h, card, s.rows, entries[copied[i]])
      ensures !Indexed(h, card, low, entries[copied[i]])
    {
      var e := toCopy[done[i]];
      SameKey(h, honest, s, j, dsts[i], e, entries[copied[i]], card(e.src));
      KeptNotIndexed(h, card, entries, views, origin, toCopy, low, high, done[i]);
    }
  }

  /** If every planned copy landed, every scanned entry is on the destination; if every copy
      was recorded too, every scanned entry is in the index. */
  lemma AllLanded(h: Bytes -> Hash, honest: bool, s: State, j: JobId, card: Card, entries: seq<FileEntry>,
                  views: seq<seq<Row>>, origin: seq<nat>, toCopy: seq<FileEntry>, low: seq<Row>, high: seq<Row>,
                  copied: seq<nat>, dsts: seq<Path>, recorded: seq<bool>, i: nat)
    requires IsPlan(h, card, entries, views, origin, toCopy) && Between(views, low, high) && high <= s.rows
    requires Inv(h, s) && Landed(h, honest, s, j, card, entries, copied, dsts, recorded) && copied == origin
    requires i < |entries|
    ensures Secured(h, s, entries[i], card(entries[i].src))
    ensures (forall k :: 0 <= k < |recorded| ==> recorded[k]) ==> Indexed(h, card, s.rows, entries[i])
  {
    if i in origin {
      var k :| 0 <= k < |origin| && origin[k] == i;
      IngestedIsSecured(h, honest, s, j, dsts[k], entries[i], card(entries[i].src));
    } else {
      assert Decided(h, card, views[i], entries[i], None);
      IndexedGrows(h, card, views[i], s.rows, entries[i]);
      IndexedIsSecured(h, s, entries[i], card(entries[i].src));
    }
  }

  predicate AllIndexed(h: Bytes -> Hash, card: Card, rows: seq<Row>, entries: seq<FileEntry>) {
    forall i :: 0 <= i < |entries| ==> Indexed(h, card, rows, entries[i])
  }

  predicate AllSecured(h: Bytes -> Hash, s: State, card: Card, entries: seq<FileEntry>) {
    forall i :: 0 <= i < |entries| ==> Secured(h, s, entries[i], card(entries[i].src))
  }

  /** Result of a run. `started` says whether copying began; `copied` are the positions in the
      scan of the files copied, `dsts` where they went, `recorded` whether their index rows were
      written. */
  datatype RunResult = RunResult(end: RunEnd, started: bool, copied: seq<nat>, dsts: seq<Path>, recorded: seq<bool>)
  {
    predicate Complete(m: Meter)
      reads m
    {
      end == Ended(Done) && m.filesFailed == 0
    }
  }

  /** What a run did to the destination: the files at `copied`, not indexed before, are there as
      `dsts`, and that is all the job put there. */
  predicate Adds(h: Bytes -> Hash, honest: bool, s: State, t: State, j: JobId, card: Card, entries: seq<FileEntry>,
                 r: RunResult) {
    && Landed(h, honest, t, j, card, entries, r.copied, r.dsts, r.recorded)
    && NoneIndexed(h, card, s.rows, entries, r.copied)
    && Footprint(s, t, j, r.dsts)
  }

  /** The files at `copied` were each decided about when the index held `views[i]`, between `low` and
      `high`, and did not have it. */
  predicate Undecided(h: Bytes -> Hash, card: Card, low: seq<Row>, high: seq<Row>, entries: seq<FileEntry>,
                      copied: seq<nat>, views: seq<seq<Row>>) {
    && |views| == |copied|
    && forall i :: 0 <= i < |copied| ==>
         copied[i] < |entries| && low <= views[i] <= high && !Indexed(h, card, views[i], entries[copied[i]])
  }

  /** How a run went. `planned`: the dedup plan was completed. `seen`: the cause, if any, its context
      had when it looked for the destination. `start`: the length of the destination's log when
      copying began. `views`: what the index held when each file copied was decided about. */
  datatype Course = Course(planned: bool, seen: Option<Cause>, start: nat, views: seq<seq<Row>>)

  /** Copying began when the destination's log was `c.start` long: until then the job, whose run began
      in state `s`, had finalized nothing, and all it copied was decided about. */
  predicate Began(h: Bytes -> Hash, init: State, log: seq<Action>, s: State, j: JobId, card: Card,
                  entries: seq<FileEntry>, copied: seq<nat>, c: Course) {
    && c.start <= |log| && Legal(h, init, log[..c.start])
    && var mid := CopyProtocol.Run(h, init, log[..c.start]);
    && Extends(s, mid) && Own(mid, j) == Own(s, j)
    && Undecided(h, card, s.rows, mid.rows, entries, copied, c.views)
  }

  lemma BeganThen(h: Bytes -> Hash, init: State, first: seq<Action>, log: seq<Action>, s: State, j: JobId, card: Card,
                  entries: seq<FileEntry>, copied: seq<nat>, c: Course)
    requires first <= log && c.start == |first| && Legal(h, init, first)
    requires var mid := CopyProtocol.Run(h, init, first);
      && Extends(s, mid) && Own(mid, j) == Own(s, j)
      && Undecided(h, card, s.rows, mid.rows, entries, copied, c.views)
    ensures Began(h, init, log, s, j, card, entries, copied, c)
  {
    assert log[..c.start] == first;
  }

  /** Plans the run and sets its totals. */
  method PlanRun(ctx: Context, d: Destination, j: JobId, card: Card, entries: seq<FileEntry>, m: Meter)
    returns (ok: bool, toCopy: seq<FileEntry>, origin: seq<nat>, ghost views: seq<seq<Row>>)
    requires d.Valid() && j !in d.st.copies && Scanned(card, entries)
    requires m.Counters() == (0, 0, 0, 0, 0, 0) && m.inflight == 0 && m.trace == []
    modifies ctx, d, m
    ensures d.Valid() && old(d.log) <= d.log && j !in d.st.copies
    ensures Extends(old(d.st), d.st) && Own(d.st, j) == Own(old(d.st), j)
    ensures FollowAll(RUN_START, m.trace) == RUN_START && Ejected !in m.trace
    ensures m.inflight == m.filesCopied == m.filesFailed == m.bytesCopied == 0
    ensures ok ==>
      && IsPlan(d.h, card, entries, views, origin, toCopy) && Copyable(card, toCopy)
      && Between(views, old(d.st.rows), d.st.rows)
      && m.filesTotal == |toCopy| && m.filesTotal + m.filesSkipped == |entries|
      && m.bytesTotal == TotalSize(toCopy) && AllAsPlanned(d.h, card, toCopy)
    ensures LastWrites(m.trace) ==
              Numbers(if ok then Some((m.filesTotal, m.bytesTotal, m.filesSkipped)) else None, None)
    ensures d.smooth && ctx.cause.None? ==> ok
    ensures if entries == [] then ok else old(ctx.cause).Some? ==> !ok
    ensures old(ctx.cause).Some? ==> ctx.cause == old(ctx.cause)
  {
    var skipped;
    ok, toCopy, skipped, origin, views := PlanDedup(ctx, d, j, card, entries);
    if ok {
      forall k | 0 <= k < |toCopy|
        ensures !IsTmpName(toCopy[k].name) && toCopy[k].size == |card(toCopy[k].src)|
        ensures AsPlanned(d.h, toCopy[k], card(toCopy[k].src))
      {
        assert ScannedEntry(card, entries[origin[k]]);
        assert Decided(d.h, card, views[origin[k]], entries[origin[k]], Some(toCopy[k]));
      }
      SetTotals(m, toCopy, skipped);
    }
  }

  /** Copies what was planned, from JobStarted to the terminal state. */
  method Execute(ctx: Context, d: Destination, j: JobId, card: Card, toCopy: seq<FileEntry>,
                 dirOf: string -> string, opts: Settings, m: Meter)
    returns (end: RunEnd, done: seq<nat>, dsts: seq<Path>, recorded: seq<bool>)
    requires d.Valid() && j !in d.st.copies && Copyable(card, toCopy)
    requires m.inflight == m.bytesCopied == m.filesCopied == m.filesFailed == 0
    requires m.filesTotal == |toCopy| && m.bytesTotal == TotalSize(toCopy)
    requires FollowAll(RUN_START, m.trace) == RUN_START && Ejected !in m.trace
    modifies ctx, d, m
    ensures d.Valid() && old(d.log) <= d.log && j !in d.st.copies && Extends(old(d.st), d.st)
    ensures end.Ended? && FollowAll(RUN_START, m.trace) == Track(Closed, end.status)
    ensures Landed(d.h, d.honest, d.st, j, card, toCopy, done, dsts, recorded) && Footprint(old(d.st), d.st, j, dsts)
    ensures m.filesCopied == |done| && m.bytesCopied == SizeOf(toCopy, done) && m.Valid()
    ensures m.filesTotal == old(m.filesTotal) && m.filesSkipped == old(m.filesSkipped)
    ensures m.bytesTotal == old(m.bytesTotal)
    ensures end.status == if ctx.cause.Some? then FailStatus(ctx.cause) else Done
    ensures end.status == Done ==> m.filesCopied + m.filesFailed == m.filesTotal
    ensures end.status == Done && m.filesFailed == 0 ==>
              |done| == |toCopy| && forall i :: 0 <= i < |done| ==> done[i] == i
    ensures Ejected in m.trace <==> end.status == Done && m.filesFailed == 0 && opts.eject
    ensures AllPlaced(d.st, toCopy, done, dsts, dirOf, opts.paranoid)
    ensures m.inflight == 0 && LastSays(m, end.status)
    ensures LastWrites(m.trace) == Numbers(LastWrites(old(m.trace)).totals,
                                           Some((m.filesCopied, m.bytesCopied, m.filesFailed)))
    ensures Unfailing(ctx, d, m, AllAsPlanned(d.h, card, toCopy), recorded)
    ensures old(ctx.cause).Some? ==> ctx.cause == old(ctx.cause)
  {
    var k;
    k, done, dsts, recorded := CopyPlanned(ctx, d, j, card, toCopy, dirOf, opts.paranoid, m);
    end := Finish(ctx, m, opts.eject);
  }

  /** The copying, from JobStarted to the last flush; `k` files were handled. */
  method CopyPlanned(ctx: Context, d: Destination, j: JobId, card: Card, toCopy: seq<FileEntry>,
                     dirOf: string -> string, paranoid: bool, m: Meter)
    returns (k: nat, done: seq<nat>, dsts: seq<Path>, recorded: seq<bool>)
    requires d.Valid() && j !in d.st.copies && Copyable(card, toCopy)
    requires m.inflight == m.bytesCopied == m.filesCopied == m.filesFailed == 0
    requires m.filesTotal == |toCopy| && m.bytesTotal == TotalSize(toCopy)
    requires FollowAll(RUN_START, m.trace) == RUN_START && Ejected !in m.trace
    modifies ctx, d, m
    ensures d.Valid() && old(d.log) <= d.log && j !in d.st.copies
    ensures FollowAll(RUN_START, m.trace) == Track(Moving, Copying) && Ejected !in m.trace
    ensures Handled(d.h, d.honest, old(d.st), d.st, j, card, toCopy, k, done, dsts, recorded, dirOf, paranoid,
                    m.filesCopied, m.filesFailed, m.bytesCopied, m.bytesTotal)
    ensures m.filesTotal == old(m.filesTotal) && m.filesSkipped == old(m.filesSkipped)
    ensures m.bytesTotal == old(m.bytesTotal) && m.inflight == 0 && m.Valid()
    ensures LastWrites(m.trace) == Numbers(LastWrites(old(m.trace)).totals,
                                           Some((m.filesCopied, m.bytesCopied, m.filesFailed)))
    ensures k == |toCopy| || ctx.cause.Some?
    ensures Unfailing(ctx, d, m, AllAsPlanned(d.h, card, toCopy), recorded)
    ensures old(ctx.cause).Some? ==> ctx.cause == old(ctx.cause)
  {
    Start(m);
    ghost var t0 := m.trace;
    var completed;
    completed, k, done, dsts, recorded := CopyAll(ctx, d, j, card, toCopy, dirOf, paranoid, m);
    ProgressOnlyTracked(t0, m.trace);
    ProgressKeepsTotals(t0, m.trace);
    FlushLast(m);
  }

  /** What the scan found. */
  function Found(p: Platform): seq<FileEntry> {
    if p.scan.Some? then p.scan.value else []
  }

  /** What the medium has of the files copied hashes to what the card has. */
  predicate AllReread(h: Bytes -> Hash, s: State, card: Card, entries: seq<FileEntry>, copied: seq<nat>,
                      dsts: seq<Path>) {
    |dsts| == |copied| && forall i :: 0 <= i < |copied| ==>
      copied[i] < |entries| && dsts[i] in s.files && h(s.files[dsts[i]].data) == h(card(entries[copied[i]].src))
  }

  lemma ParanoidIsReread(h: Bytes -> Hash, honest: bool, s: State, j: JobId, card: Card, entries: seq<FileEntry>,
                         copied: seq<nat>, dsts: seq<Path>, recorded: seq<bool>, dirOf: string -> string)
    requires Landed(h, honest, s, j, card, entries, copied, dsts, recorded)
    requires AllPlaced(s, entries, copied, dsts, dirOf, true)
    ensures AllReread(h, s, card, entries, copied, dsts)
  {
    forall i | 0 <= i < |copied|
      ensures dsts[i] in s.files && h(s.files[dsts[i]].data) == h(card(entries[copied[i]].src))
    {
      assert Ingested(h, honest, s, j, dsts[i], entries[copied[i]], card(entries[copied[i]].src));
      assert Placed(s, dsts[i], dirOf(entries[copied[i]].mtime), entries[copied[i]].name, true);
    }
  }

  lemma PlacedFromPlan(h: Bytes -> Hash, s: State, card: Card, entries: seq<FileEntry>, views: seq<seq<Row>>,
                       origin: seq<nat>, toCopy: seq<FileEntry>, done: seq<nat>, dsts: seq<Path>,
                       dirOf: string -> string, paranoid: bool)
    requires IsPlan(h, card, entries, views, origin, toCopy) && AllPlaced(s, toCopy, done, dsts, dirOf, paranoid)
    requires forall i :: 0 <= i < |done| ==> done[i] < |origin|
    ensures AllPlaced(s, entries, Compose(origin, done), dsts, dirOf, paranoid)
  {
    forall i | 0 <= i < |done|
      ensures var e := entries[origin[done[i]]]; Placed(s, dsts[i], dirOf(e.mtime), e.name, paranoid)
    {
      assert Decided(h, card, views[origin[done[i]]], entries[origin[done[i]]], Some(toCopy[done[i]]));
      assert Placed(s, dsts[i], dirOf(toCopy[done[i]].mtime), toCopy[done[i]].name, paranoid);
    }
  }

  /** One run. */
  method Run(ctx: Context, d: Destination, j: JobId, card: Card, p: Platform, dirOf: string -> string,
             opts: Settings, m: Meter) returns (r: RunResult, ghost c: Course)
    requires d.Valid() && j !in d.st.copies
    requires p.scan.Some? ==> Scanned(card, p.scan.value)
    requires m.Counters() == (0, 0, 0, 0, 0, 0) && m.inflight == 0 && m.trace == []
    modifies ctx, d, m
    // The destination and the index only gained finalized files and rows.
    ensures d.Valid() && old(d.log) <= d.log && j !in d.st.copies && Extends(old(d.st), d.st)
    // Exactly one event sequence of the grammar, each event matching the status just written.
    ensures FollowAll(RUN_START, m.trace) ==
              if r.end.Blocked? then Track(Waiting, Pending) else Track(Closed, r.end.status)
    // How it ends: parked, or failed or cancelled by the first cause, or done.
    ensures r.end.Blocked? <==> c.planned && (c.seen.Some? || !p.mounted)
    ensures r.end == Ended(Done) <==> r.started && ctx.cause.None?
    ensures r.end == Ended(Cancelled) <==> r.end.Ended? && ctx.cause == Some(UserCancelled)
    ensures r.end.Ended? ==> r.end.status.Done? || r.end.status.Cancelled? || r.end.status.Failed?
    ensures c.planned ==> p.scan.Some? && m.filesTotal + m.filesSkipped == |p.scan.value|
    ensures p.scan == Some([]) ==> c.planned
    ensures c.seen.Some? ==> ctx.cause == c.seen
    ensures r.started <==> c.planned && c.seen.None? && p.mounted && p.free.Some? && Need(m.bytesTotal) <= p.free.value
    // A job stopped before its run parks all the same exactly if there is nothing to plan.
    ensures old(ctx.cause).Some? ==> (r.end.Blocked? <==> p.scan == Some([]))
    ensures old(ctx.cause).Some? && c.planned ==> c.seen == old(ctx.cause)
    // Nothing is copied unless the destination is there with room for payload and margin.
    ensures !r.started ==> r.copied == []
    ensures r.started && m.bytesTotal < TWO63 ==> m.bytesTotal + SPACE_MARGIN <= p.free.value
    // What was copied is on the destination, is all the job put there, and was in no index before,
    // nor when it was decided about, which was before copying began.
    ensures Adds(d.h, d.honest, old(d.st), d.st, j, card, Found(p), r)
    ensures |old(d.log)| <= c.start
    ensures Began(d.h, d.init, d.log, old(d.st), j, card, Found(p), r.copied, c)
    // Each file is in its directory under the first free name, and in paranoid mode was read again.
    ensures AllPlaced(d.st, Found(p), r.copied, r.dsts, dirOf, opts.paranoid)
    ensures opts.paranoid ==> AllReread(d.h, d.st, card, Found(p), r.copied, r.dsts)
    // Accounting, in the counters, in the last event and in the row.
    ensures r.started ==>
      && m.filesCopied == |r.copied| && m.bytesCopied == SizeOf(p.scan.value, r.copied)
      && m.filesCopied + m.filesFailed <= m.filesTotal && m.bytesCopied <= m.bytesTotal
    ensures r.end == Ended(Done) ==> m.filesCopied + m.filesFailed == m.filesTotal
    ensures r.Complete(m) ==> m.filesCopied == m.filesTotal && m.bytesCopied == m.bytesTotal
    ensures m.inflight == 0 && (r.end.Ended? ==> LastSays(m, r.end.status))
    ensures LastWrites(m.trace) ==
              Numbers(if c.planned then Some((m.filesTotal, m.bytesTotal, m.filesSkipped)) else None,
                      if r.started then Some((m.filesCopied, m.bytesCopied, m.filesFailed)) else None)
    // No media loss: done without failures means every scanned file is on the destination.
    ensures r.Complete(m) ==> p.scan.Some? && AllSecured(d.h, d.st, card, p.scan.value)
    ensures r.Complete(m) && AllTrue(r.recorded) ==>
              AllIndexed(d.h, card, d.st.rows, p.scan.value)
    ensures Ejected in m.trace <==> r.Complete(m) && opts.eject
    // If no call fails, the medium is honest, nobody cancels, and there is room, all of it is done.
    ensures Smooth(ctx, d) && d.honest && p.scan.Some? && p.mounted
            && p.free.Some? && Need(m.bytesTotal) <= p.free.value ==>
              r.Complete(m) && AllTrue(r.recorded) && AllIndexed(d.h, card, d.st.rows, p.scan.value)
    // A card all of whose files are indexed is not copied again.
    ensures r.started && AllIndexed(d.h, card, old(d.st.rows), p.scan.value) ==>
              r.copied == [] && m.filesTotal == 0 && m.filesSkipped == |p.scan.value|
  {
    ghost var s0 := d.st;
    var stop, toCopy, origin;
    ghost var views, planned, seen;
    stop, toCopy, origin, views, planned, seen := Prepare(ctx, d, j, card, p, m);
    c := Course(planned, seen, |d.log|, []);
    if stop.Some? {
      r := RunResult(stop.value, false, [], [], []);
      NothingAdded(d, s0, j, card, Found(p), dirOf, opts.paranoid, r, c);
    } else {
      r, c := RunPlanned(ctx, d, j, card, p.scan.value, origin, toCopy, dirOf, opts, m, s0, views, c);
    }
  }

  /** The rest of the run, planned since the destination was in state `s0`. */
  method RunPlanned(ctx: Context, d: Destination, j: JobId, card: Card, entries: seq<FileEntry>, origin: seq<nat>,
                    toCopy: seq<FileEntry>, dirOf: string -> string, opts: Settings, m: Meter,
                    ghost s0: State, ghost views: seq<seq<Row>>, ghost c0: Course)
    returns (r: RunResult, ghost c: Course)
    requires d.Valid() && j !in d.st.copies && Extends(s0, d.st) && Own(d.st, j) == Own(s0, j)
    requires IsPlan(d.h, card, entries, views, origin, toCopy) && Copyable(card, toCopy)
    requires Between(views, s0.rows, d.st.rows)
    requires m.inflight == m.bytesCopied == m.filesCopied == m.filesFailed == 0
    requires m.filesTotal == |toCopy| && m.bytesTotal == TotalSize(toCopy)
    requires FollowAll(RUN_START, m.trace) == RUN_START && Ejected !in m.trace && c0.start == |d.log|
    modifies ctx, d, m
    ensures d.Valid() && old(d.log) <= d.log && j !in d.st.copies && Extends(s0, d.st)
    ensures r.started && r.end.Ended? && FollowAll(RUN_START, m.trace) == Track(Closed, r.end.status)
    ensures r.end.status == if ctx.cause.Some? then FailStatus(ctx.cause) else Done
    ensures Adds(d.h, d.honest, s0, d.st, j, card, entries, r)
    ensures Began(d.h, d.init, d.log, s0, j, card, entries, r.copied, c) && c == c0.(views := c.views)
    ensures m.filesCopied == |r.copied| && m.bytesCopied == SizeOf(entries, r.copied) && m.Valid()
    ensures m.filesTotal == old(m.filesTotal) && m.filesSkipped == old(m.filesSkipped)
    ensures m.bytesTotal == old(m.bytesTotal)
    ensures r.end.status == Done ==> m.filesCopied + m.filesFailed == m.filesTotal
    ensures r.Complete(m) ==> AllSecured(d.h, d.st, card, entries)
    ensures r.Complete(m) && AllTrue(r.recorded) ==>
              AllIndexed(d.h, card, d.st.rows, entries)
    ensures Ejected in m.trace <==> r.Complete(m) && opts.eject
    ensures AllIndexed(d.h, card, s0.rows, entries) ==> toCopy == [] && r.copied == []
    ensures AllPlaced(d.st, entries, r.copied, r.dsts, dirOf, opts.paranoid)
    ensures opts.paranoid ==> AllReread(d.h, d.st, card, entries, r.copied, r.dsts)
    ensures r.Complete(m) ==> m.filesCopied == m.filesTotal && m.bytesCopied == m.bytesTotal
    ensures m.inflight == 0 && LastSays(m, r.end.status)
    ensures LastWrites(m.trace) == Numbers(LastWrites(old(m.trace)).totals,
                                           Some((m.filesCopied, m.bytesCopied, m.filesFailed)))
    ensures Unfailing(ctx, d, m, AllAsPlanned(d.h, card, toCopy), r.recorded)
    ensures old(ctx.cause).Some? ==> ctx.cause == old(ctx.cause)
  {
    ghost var s1 := d.st;
    var end, done, dsts, recorded := Execute(ctx, d, j, card, toCopy, dirOf, opts, m);
    r := RunResult(end, true, Compose(origin, done), dsts, recorded);
    c := c0.(views := ViewsOf(views, origin, done));
    RunAddsUp(d, m, j, card, entries, views, origin, toCopy, s0, s1, old(d.log), done, r, c, dirOf, opts.paranoid);
  }

  /** What the index held when the files at positions `done` of the copy list were decided about. */
  function ViewsOf(views: seq<seq<Row>>, origin: seq<nat>, done: seq<nat>): (r: seq<seq<Row>>)
    requires forall i :: 0 <= i < |done| ==> done[i] < |origin| && origin[done[i]] < |views|
    ensures |r| == |done|
  {
    seq(|done|, i requires 0 <= i < |done| => views[origin[done[i]]])
  }

  lemma KeptUndecided(h: Bytes -> Hash, card: Card, entries: seq<FileEntry>, views: seq<seq<Row>>, origin: seq<nat>,
                      toCopy: seq<FileEntry>, low: seq<Row>, high: seq<Row>, done: seq<nat>)
    requires IsPlan(h, card, entries, views, origin, toCopy) && Between(views, low, high)
    requires forall i :: 0 <= i < |done| ==> done[i] < |origin|
    ensures Undecided(h, card, low, high, entries, Compose(origin, done), ViewsOf(views, origin, done))
  {
    forall i | 0 <= i < |done| ensures !Indexed(h, card, views[origin[done[i]]], entries[origin[done[i]]]) {
      assert Decided(h, card, views[origin[done[i]]], entries[origin[done[i]]], Some(toCopy[done[i]]));
    }
  }

  /** The run up to the copy loop: `stop` is how it ends before it begins to copy. The destination is
      looked for with the run's own context, and counts as missing if that is cancelled. */
  method Prepare(ctx: Context, d: Destination, j: JobId, card: Card, p: Platform, m: Meter)
    returns (stop: Option<RunEnd>, toCopy: seq<FileEntry>, origin: seq<nat>, ghost views: seq<seq<Row>>,
             ghost planned: bool, ghost seen: Option<Cause>)
    requires d.Valid() && j !in d.st.copies
    requires p.scan.Some? ==> Scanned(card, p.scan.value)
    requires m.Counters() == (0, 0, 0, 0, 0, 0) && m.inflight == 0 && m.trace == []
    modifies ctx, d, m
    ensures d.Valid() && old(d.log) <= d.log && j !in d.st.copies
    ensures Extends(old(d.st), d.st) && Own(d.st, j) == Own(old(d.st), j)
    ensures Ejected !in m.trace
    ensures FollowAll(RUN_START, m.trace) ==
              match stop
              case None => RUN_START
              case Some(Blocked) => Track(Waiting, Pending)
              case Some(Ended(status)) => Track(Closed, status)
    ensures stop.Some? && stop.value.Ended? ==> stop.value.status == FailStatus(ctx.cause)
    ensures stop == Some(Blocked) <==> planned && (seen.Some? || !p.mounted)
    ensures stop.None? <==>
              planned && seen.None? && p.mounted && p.free.Some? && Need(m.bytesTotal) <= p.free.value
    ensures m.inflight == 0 && (stop.Some? && stop.value.Ended? ==> LastSays(m, stop.value.status))
    ensures LastWrites(m.trace) ==
              Numbers(if planned then Some((m.filesTotal, m.bytesTotal, m.filesSkipped)) else None, None)
    ensures d.smooth && ctx.cause.None? && p.scan.Some? ==> planned && seen.None?
    ensures planned ==> p.scan.Some? && m.filesTotal + m.filesSkipped == |p.scan.value|
    ensures seen.Some? ==> ctx.cause == seen
    ensures stop.None? ==>
      && (m.bytesTotal < TWO63 ==> m.bytesTotal + SPACE_MARGIN <= p.free.value)
      && IsPlan(d.h, card, p.scan.value, views, origin, toCopy) && Copyable(card, toCopy)
      && AllAsPlanned(d.h, card, toCopy)
      && Between(views, old(d.st.rows), d.st.rows)
      && m.filesTotal == |toCopy| && m.bytesTotal == TotalSize(toCopy)
      && m.inflight == m.filesCopied == m.filesFailed == m.bytesCopied == 0
    ensures old(ctx.cause).Some? ==> ctx.cause == old(ctx.cause)
    ensures old(ctx.cause).Some? ==> (planned <==> p.scan == Some([])) && (planned ==> seen == old(ctx.cause))
    ensures p.scan == Some([]) ==> planned
  {
    toCopy, origin, views, planned, seen := [], [], [], false, None;
    if p.scan.None? {
      var end := FailRun(ctx, m);
      stop := Some(end);
      return;
    }
    var ok;
    ok, toCopy, origin, views := PlanRun(ctx, d, j, card, p.scan.value, m);
    if !ok {
      var end := FailRun(ctx, m);
      stop := Some(end);
      return;
    }
    planned := true;
    var cancelled := ctx.Cancelled();
    seen := ctx.cause;
    if cancelled || !p.mounted {
      Park(m);
      stop := Some(Blocked);
      return;
    }
    if p.free.None? || p.free.value < Need(m.bytesTotal) {
      var end := FailRun(ctx, m);
      stop := Some(end);
      return;
    }
    if m.bytesTotal < TWO63 {
      NeedIsSum(m.bytesTotal);
    }
    stop := None;
  }

  /** What a run that got to copying adds up to. */
  lemma RunAddsUp(d: Destination, m: Meter, j: JobId, card: Card, entries: seq<FileEntry>, views: seq<seq<Row>>,
                  origin: seq<nat>, toCopy: seq<FileEntry>, s0: State, s1: State, log1: seq<Action>,
                  done: seq<nat>, r: RunResult, c: Course, dirOf: string -> string, paranoid: bool)
    requires d.Valid() && Extends(s0, s1) && Extends(s1, d.st) && Own(s1, j) == Own(s0, j)
    requires IsPlan(d.h, card, entries, views, origin, toCopy) && Between(views, s0.rows, s1.rows)
    requires log1 <= d.log && c.start == |log1| && Legal(d.h, d.init, log1) && s1 == CopyProtocol.Run(d.h, d.init, log1)
    requires AllPlaced(d.st, toCopy, done, r.dsts, dirOf, paranoid)
    requires Landed(d.h, d.honest, d.st, j, card, toCopy, done, r.dsts, r.recorded) && Footprint(s1, d.st, j, r.dsts)
    requires r.copied == Compose(origin, done)
    requires (forall i :: 0 <= i < |done| ==> done[i] < |origin|) && c.views == ViewsOf(views, origin, done)
    requires r.Complete(m) ==> |done| == |toCopy| && forall i :: 0 <= i < |done| ==> done[i] == i
    ensures Extends(s0, d.st) && Adds(d.h, d.honest, s0, d.st, j, card, entries, r)
    ensures SizeOf(entries, r.copied) == SizeOf(toCopy, done)
    ensures r.Complete(m) ==> SizeOf(toCopy, done) == TotalSize(toCopy)
    ensures AllPlaced(d.st, entries, r.copied, r.dsts, dirOf, paranoid)
    ensures paranoid ==> AllReread(d.h, d.st, card, entries, r.copied, r.dsts)
    ensures Began(d.h, d.init, d.log, s0, j, card, entries, r.copied, c)
    ensures r.Complete(m) ==> AllSecured(d.h, d.st, card, entries)
    ensures r.Complete(m) && AllTrue(r.recorded) ==>
              AllIndexed(d.h, card, d.st.rows, entries)
    ensures AllIndexed(d.h, card, s0.rows, entries) ==> toCopy == [] && r.copied == []
  {
    KeptUndecided(d.h, card, entries, views, origin, toCopy, s0.rows, s1.rows, done);
    BeganThen(d.h, d.init, log1, d.log, s0, j, card, entries, r.copied, c);
    ExtendsTrans(s0, s1, d.st);
    LandedFromPlan(d.h, d.honest, d.st, j, card, entries, views, origin, toCopy, s0.rows, s1.rows, done, r.dsts,
                   r.recorded);
    FootprintSince(s0, s1, d.st, j, r.dsts);
    PlacedFromPlan(d.h, d.st, card, entries, views, origin, toCopy, done, r.dsts, dirOf, paranoid);
    if paranoid {
      ParanoidIsReread(d.h, d.honest, d.st, j, card, entries, r.copied, r.dsts, r.recorded, dirOf);
    }
    if r.Complete(m) {
      SizeOfAll(toCopy, done);
    }
    RunCompletes(d, m, j, card, entries, views, origin, toCopy, s0, s1, done, r);
    if AllIndexed(d.h, card, s0.rows, entries) && toCopy != [] {
      KeptNotIndexed(d.h, card, entries, views, origin, toCopy, s0.rows, s1.rows, 0);
    }
  }

  lemma NothingAdded(d: Destination, s0: State, j: JobId, card: Card, entries: seq<FileEntry>, dirOf: string -> string,
                     paranoid: bool, r: RunResult, c: Course)
    requires d.Valid() && Extends(s0, d.st) && Own(d.st, j) == Own(s0, j)
    requires r.copied == [] && r.dsts == [] && r.recorded == [] && c.start == |d.log| && c.views == []
    ensures Adds(d.h, d.honest, s0, d.st, j, card, entries, r) && AllPlaced(d.st, entries, [], [], dirOf, paranoid)
    ensures AllReread(d.h, d.st, card, entries, [], [])
    ensures Began(d.h, d.init, d.log, s0, j, card, entries, [], c)
  {
    NoFootprint(s0, d.st, j);
    BeganThen(d.h, d.init, d.log, d.log, s0, j, card, entries, [], c);
  }

  lemma NoFootprint(s: State, t: State, j: JobId)
    requires Own(t, j) == Own(s, j)
    ensures Footprint(s, t, j, [])
  {
    forall p | p in t.receipts && t.receipts[p].owner == j ensures p in s.receipts {
      assert p in Own(t, j);
    }
  }

  lemma FootprintSince(s: State, t: State, u: State, j: JobId, dsts: seq<Path>)
    requires Extends(s, t) && Extends(t, u) && Own(t, j) == Own(s, j) && Footprint(t, u, j, dsts)
    ensures Footprint(s, u, j, dsts)
  {
    forall p | p in u.receipts && u.receipts[p].owner == j && p !in dsts ensures p in s.receipts {
      assert p in Own(t, j);
    }
  }

  lemma RunCompletes(d: Destination, m: Meter, j: JobId, card: Card, entries: seq<FileEntry>, views: seq<seq<Row>>,
                     origin: seq<nat>, toCopy: seq<FileEntry>, s0: State, s1: State, done: seq<nat>, r: RunResult)
    requires d.Valid() && Extends(s1, d.st)
    requires IsPlan(d.h, card, entries, views, origin, toCopy) && Between(views, s0.rows, s1.rows)
    requires Landed(d.h, d.honest, d.st, j, card, entries, r.copied, r.dsts, r.recorded)
    requires forall i :: 0 <= i < |done| ==> done[i] < |origin|
    requires r.copied == Compose(origin, done)
    requires r.Complete(m) ==> |done| == |toCopy| && forall i :: 0 <= i < |done| ==> done[i] == i
    ensures r.Complete(m) ==> AllSecured(d.h, d.st, card, entries)
    ensures r.Complete(m) && AllTrue(r.recorded) ==>
              AllIndexed(d.h, card, d.st.rows, entries)
  {
    if r.Complete(m) {
      assert r.copied == origin;
      d.Invariant();
      forall i | 0 <= i < |entries|
        ensures Secured(d.h, d.st, entries[i], card(entries[i].src))
        ensures (forall k :: 0 <= k < |r.recorded| ==> r.recorded[k]) ==> Indexed(d.h, card, d.st.rows, entries[i])
      {
        AllLanded(d.h, d.honest, d.st, j, card, entries, views, origin, toCopy, s0.rows, s1.rows, r.copied, r.dsts,
                  r.recorded, i);
      }
    }
  }

  /** Destination missing: the job stays pending. */
  method Park(m: Meter)
    requires FollowAll(RUN_START, m.trace) == RUN_START && Ejected !in m.trace
    modifies m`trace
    ensures FollowAll(RUN_START, m.trace) == Track(Waiting, Pending) && Ejected !in m.trace
    ensures LastWrites(m.trace) == LastWrites(old(m.trace))
  {
    TwoWrites(m.trace, WroteStatus(Pending), Published(DestMissing, Pending, m.filesCopied, m.filesFailed,
                                                       m.bytesCopied + m.inflight, m.bytesTotal));
    TrackStep(m.trace, WroteStatus(Pending));
    m.Emit(WroteStatus(Pending));
    TrackStep(m.trace, Published(DestMissing, Pending, m.filesCopied, m.filesFailed,
                                 m.bytesCopied + m.inflight, m.bytesTotal));
    m.Publish(DestMissing, Pending);
  }
}
