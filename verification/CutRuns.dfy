/** A run cut off anywhere: by a removed card, a cancel, or the death of the process. */
module CutRuns {
  import opened Jobs
  import opened CopyProtocol
  import opened DestVolume
  import opened CrashLosses
  import opened Dedup
  import opened JobRunner
  import opened IngestRun

  /** One run on the card `entries`: the index before and after, the positions copied, where the
      files went, what the index held when each was decided about, and the positions copied that did
      not get into the index. */
  datatype CardRun = CardRun(before: seq<Row>, after: seq<Row>, copied: seq<nat>, dsts: seq<Path>,
                             views: seq<seq<Row>>, missed: set<nat>)

  /** The index has a row for the file at `dst`, and it is `e`'s. */
  predicate RowFor(h: Bytes -> Hash, card: Card, rows: seq<Row>, dst: Path, e: FileEntry) {
    exists n :: 0 <= n < |rows| && rows[n].dst == dst && rows[n].size == e.size && rows[n].mtime == e.mtime
                && rows[n].hash == h(card(e.src))
  }

  lemma RowForIndexes(h: Bytes -> Hash, card: Card, rows: seq<Row>, more: seq<Row>, dst: Path, e: FileEntry)
    requires RowFor(h, card, rows, dst, e) && rows <= more
    ensures RowFor(h, card, more, dst, e) && Indexed(h, card, more, e)
  {
    var n :| 0 <= n < |rows| && rows[n].dst == dst && rows[n].size == e.size && rows[n].mtime == e.mtime
             && rows[n].hash == h(card(e.src));
    assert more[n] == rows[n];
  }

  predicate IsRun(h: Bytes -> Hash, card: Card, entries: seq<FileEntry>, r: CardRun) {
    && r.before <= r.after
    && Increasing(r.copied, |entries|) && |r.dsts| == |r.copied| && (forall x :: x in r.missed ==> x in r.copied)
    && Undecided(h, card, r.before, r.after, entries, r.copied, r.views)
    && forall i :: 0 <= i < |r.copied| ==>
         r.copied[i] in r.missed || RowFor(h, card, r.after, r.dsts[i], entries[r.copied[i]])
  }

  // ---- what a cut run had done ------------------------------------------------------------

  /** Which of the files at `dsts` are finalized in state `s`. */
  function ReachedAt(s: State, dsts: seq<Path>): (idx: seq<nat>)
    ensures forall k :: 0 <= k < |idx| ==> idx[k] < |dsts|
  {
    if dsts == [] then []
    else
      var n := |dsts| - 1;
      ReachedAt(s, dsts[..n]) + (if dsts[n] in s.receipts then [n] else [])
  }

  lemma {:induction false} ReachedAre(s: State, dsts: seq<Path>)
    ensures var idx := ReachedAt(s, dsts);
      Increasing(idx, |dsts|) && forall i :: 0 <= i < |dsts| ==> (i in idx <==> dsts[i] in s.receipts)
  {
    if dsts != [] {
      var n := |dsts| - 1;
      ReachedAre(s, dsts[..n]);
      assert forall i :: 0 <= i < n ==> dsts[..n][i] == dsts[i];
    }
  }

  function Pick<T>(xs: seq<T>, idx: seq<nat>): (r: seq<T>)
    requires forall k :: 0 <= k < |idx| ==> idx[k] < |xs|
    ensures |r| == |idx|
  {
    seq(|idx|, k requires 0 <= k < |idx| => xs[idx[k]])
  }

  /** Of the positions `copied` reached in `s`, those without an index row. */
  function Missed(s: State, copied: seq<nat>, dsts: seq<Path>): set<nat>
    requires |dsts| == |copied|
  {
    set i | 0 <= i < |copied| && dsts[i] in s.receipts && !HasRow(s, dsts[i]) :: copied[i]
  }

  /** Of these, those whose insert failed. */
  function Unwritten(s: State, copied: seq<nat>, dsts: seq<Path>): set<nat>
    requires |dsts| == |copied|
  {
    set i | 0 <= i < |copied| && dsts[i] in s.orphans && s.orphans[dsts[i]].InsertFailed? :: copied[i]
  }

  /** A run begun in `s0` and cut off in `s`, which would have had the result `r`. */
  function CutOff(s0: State, s: State, r: RunResult, c: Course): CardRun
    requires |r.copied| == |r.dsts| == |c.views|
  {
    var idx := ReachedAt(s, r.dsts);
    CardRun(s0.rows, s.rows, Pick(r.copied, idx), Pick(r.dsts, idx), Pick(c.views, idx),
            Missed(s, r.copied, r.dsts))
  }

  lemma RowIndexes(h: Bytes -> Hash, honest: bool, s: State, j: JobId, p: Path, card: Card, e: FileEntry)
    requires RowsOk(s) && HasRow(s, p) && Ingested(h, honest, s, j, p, e, card(e.src))
    ensures RowFor(h, card, s.rows, p, e)
  {
    var i :| 0 <= i < |s.rows| && s.rows[i].dst == p;
    assert RowOk(s, s.rows[i]);
  }

  lemma IngestedBefore(h: Bytes -> Hash, honest: bool, s: State, t: State, j: JobId, p: Path, e: FileEntry,
                       content: Bytes)
    requires Inv(h, s) && Extends(s, t) && p in s.receipts && Ingested(h, honest, t, j, p, e, content)
    ensures Ingested(h, honest, s, j, p, e, content)
  {
  }

  /** Copying had not begun when the run was cut off in `s`, or all its decisions lay behind. */
  predicate BeganOrNot(s: State, mid: State) {
    || mid.rows <= s.rows
    || (forall p :: p in s.receipts ==> p in mid.receipts && mid.receipts[p] == s.receipts[p])
  }

  lemma NothingReached(h: Bytes -> Hash, honest: bool, s0: State, mid: State, s: State, t: State, j: JobId, card: Card,
                       entries: seq<FileEntry>, r: RunResult, i: nat)
    requires Extends(s, t) && Own(mid, j) == Own(s0, j) && Adds(h, honest, s0, t, j, card, entries, r)
    requires forall p :: p in s.receipts ==> p in mid.receipts && mid.receipts[p] == s.receipts[p]
    requires i < |r.dsts|
    ensures r.dsts[i] !in s.receipts
  {
    var p := r.dsts[i];
    assert p in Own(mid, j) ==> p in Own(s0, j);
  }

  /** A file reached was decided about before the cut, and has its row unless it missed it. */
  lemma CutEntry(h: Bytes -> Hash, honest: bool, s0: State, mid: State, s: State, t: State, j: JobId, card: Card,
                 entries: seq<FileEntry>, r: RunResult, c: Course, i: nat)
    requires Inv(h, s) && Extends(s, t) && Adds(h, honest, s0, t, j, card, entries, r)
    requires Own(mid, j) == Own(s0, j) && BeganOrNot(s, mid)
    requires Undecided(h, card, s0.rows, mid.rows, entries, r.copied, c.views)
    requires i < |r.dsts| && r.dsts[i] in s.receipts
    ensures c.views[i] <= s.rows
    ensures HasRow(s, r.dsts[i]) ==> RowFor(h, card, s.rows, r.dsts[i], entries[r.copied[i]])
  {
    if !(mid.rows <= s.rows) {
      NothingReached(h, honest, s0, mid, s, t, j, card, entries, r, i);
    }
    if HasRow(s, r.dsts[i]) {
      var e := entries[r.copied[i]];
      IngestedBefore(h, honest, s, t, j, r.dsts[i], e, card(e.src));
      RowIndexes(h, honest, s, j, r.dsts[i], card, e);
    }
  }

  lemma MissedAreCopied(s: State, copied: seq<nat>, dsts: seq<Path>, x: nat)
    requires |dsts| == |copied| && x in Missed(s, copied, dsts)
    ensures x in Pick(copied, ReachedAt(s, dsts))
  {
    var idx := ReachedAt(s, dsts);
    ReachedAre(s, dsts);
    var i :| 0 <= i < |copied| && dsts[i] in s.receipts && !HasRow(s, dsts[i]) && copied[i] == x;
    var k :| 0 <= k < |idx| && idx[k] == i;
    assert Pick(copied, idx)[k] == x;
  }

  lemma PickIncreases(copied: seq<nat>, idx: seq<nat>, bound: nat)
    requires Increasing(copied, bound) && Increasing(idx, |copied|)
    ensures Increasing(Pick(copied, idx), bound)
  {
  }

  /** Cut off in state `s`, on its way from `s0` by `mid`, where copying began, to `t`, a run is one
      whose copied files are indexed but for those without a row. */
  lemma CutIsRun(h: Bytes -> Hash, honest: bool, s0: State, mid: State, s: State, t: State, j: JobId, card: Card,
                 entries: seq<FileEntry>, r: RunResult, c: Course)
    requires Inv(h, s) && s0.rows <= s.rows && Extends(s, t) && Adds(h, honest, s0, t, j, card, entries, r)
    requires Own(mid, j) == Own(s0, j) && BeganOrNot(s, mid)
    requires Undecided(h, card, s0.rows, mid.rows, entries, r.copied, c.views)
    ensures IsRun(h, card, entries, CutOff(s0, s, r, c))
  {
    var run, idx := CutOff(s0, s, r, c), ReachedAt(s, r.dsts);
    ReachedAre(s, r.dsts);
    PickIncreases(r.copied, idx, |entries|);
    forall k | 0 <= k < |idx|
      ensures run.views[k] <= s.rows
      ensures run.copied[k] in run.missed || RowFor(h, card, s.rows, run.dsts[k], entries[run.copied[k]])
    {
      assert idx[k] in idx;
      CutEntry(h, honest, s0, mid, s, t, j, card, entries, r, c, idx[k]);
    }
    forall x | x in run.missed ensures x in run.copied {
      MissedAreCopied(s, r.copied, r.dsts, x);
    }
  }

  /** A file without a row is one whose insert failed, or the one its job was about to record. */
  lemma MissedIs(s0: State, s: State, t: State, j: JobId, dsts: seq<Path>, i: nat)
    requires Accounted(s0) && Accounted(s) && Extends(s, t) && Footprint(s0, t, j, dsts)
    requires forall p :: p in s.orphans && s.orphans[p].Died? ==> p in s0.orphans
    requires i < |dsts| && dsts[i] in s.receipts && s.receipts[dsts[i]].owner == j
    ensures !HasRow(s, dsts[i]) <==>
              || (dsts[i] in s.orphans && s.orphans[dsts[i]].InsertFailed?)
              || (Waits(s, j) && s.copies[j].phase.dst == dsts[i])
  {
    assert Explained(s, dsts[i]);
    if Held(s, dsts[i]) {
      HeldByOwner(s, dsts[i]);
    }
    if Waits(s, j) && s.copies[j].phase.dst == dsts[i] {
      assert Held(s, dsts[i]);
    }
  }

  /** The position the job was about to record, if it was about to record one. */
  function Waiting(s: State, j: JobId, copied: seq<nat>, dsts: seq<Path>): set<nat>
    requires |dsts| == |copied|
  {
    set i | 0 <= i < |copied| && Waits(s, j) && s.copies[j].phase.dst == dsts[i] :: copied[i]
  }

  lemma WaitingIsOne(s: State, j: JobId, copied: seq<nat>, dsts: seq<Path>)
    requires |dsts| == |copied| && forall i, k :: 0 <= i < k < |dsts| ==> dsts[i] != dsts[k]
    ensures |Waiting(s, j, copied, dsts)| <= if Waits(s, j) then 1 else 0
  {
    var w := Waiting(s, j, copied, dsts);
    if x :| x in w {
      assert w == {x};
    }
  }

  lemma MissedFew(s0: State, s: State, t: State, j: JobId, copied: seq<nat>, dsts: seq<Path>)
    requires Accounted(s0) && Accounted(s) && Extends(s, t) && Footprint(s0, t, j, dsts) && |copied| == |dsts|
    requires forall p :: p in s.orphans && s.orphans[p].Died? ==> p in s0.orphans
    requires forall i :: 0 <= i < |dsts| && dsts[i] in s.receipts ==> s.receipts[dsts[i]].owner == j
    ensures |Missed(s, copied, dsts)| <= |Unwritten(s, copied, dsts)| + (if Waits(s, j) then 1 else 0)
  {
    var failed, last := Unwritten(s, copied, dsts), Waiting(s, j, copied, dsts);
    forall x | x in Missed(s, copied, dsts) ensures x in failed + last {
      var i :| 0 <= i < |copied| && dsts[i] in s.receipts && !HasRow(s, dsts[i]) && copied[i] == x;
      MissedIs(s0, s, t, j, dsts, i);
    }
    Smaller(Missed(s, copied, dsts), failed + last);
    WaitingIsOne(s, j, copied, dsts);
  }

  lemma Smaller<T>(a: set<T>, b: set<T>)
    requires a <= b
    ensures |a| <= |b|
  {
    assert b == a + (b - a);
  }

  /** What is known of a state `s` on the way from `s0` to `t`, all within one life of the process. */
  predicate Midway(h: Bytes -> Hash, s0: State, s: State, t: State) {
    && Inv(h, s) && Accounted(s0) && Accounted(s) && s0.rows <= s.rows && Extends(s, t)
    && (forall p :: p in s.orphans && s.orphans[p].Died? ==> p in s0.orphans)
  }

  lemma PathKeeps(h: Bytes -> Hash, s: State, log: seq<Action>)
    requires Inv(h, s) && Legal(h, s, log)
    ensures var t := CopyProtocol.Run(h, s, log);
      && Inv(h, t) && s.rows <= t.rows && s.crashes <= t.crashes
      && (t.crashes == s.crashes ==>
            Extends(s, t) && forall p :: p in t.orphans && t.orphans[p].Died? ==> p in s.orphans)
  {
    RunKeeps(h, s, log);
    FinalsForever(h, s, log);
    CrashesCounted(h, s, log);
  }

  lemma BeginsOk(h: Bytes -> Hash, init: State, past: seq<Action>, first: seq<Action>)
    requires Initial(init) && Legal(h, init, past) && Legal(h, CopyProtocol.Run(h, init, past), first)
    ensures var s0 := CopyProtocol.Run(h, init, past);
      Inv(h, s0) && Accounted(s0) && Accounted(CopyProtocol.Run(h, s0, first))
  {
    assert Inv(h, init);
    RunKeeps(h, init, past);
    LedgerKept(h, init, past);
    RunConcat(h, init, past, first);
    LedgerKept(h, init, past + first);
  }

  lemma CutIsMidway(h: Bytes -> Hash, init: State, past: seq<Action>, first: seq<Action>, second: seq<Action>)
    requires Initial(init) && Legal(h, init, past) && Legal(h, CopyProtocol.Run(h, init, past), first)
    requires var s := CopyProtocol.Run(h, CopyProtocol.Run(h, init, past), first);
      Legal(h, s, second) && CopyProtocol.Run(h, s, second).crashes == CopyProtocol.Run(h, init, past).crashes
    ensures var s0 := CopyProtocol.Run(h, init, past);
      var s := CopyProtocol.Run(h, s0, first);
      Midway(h, s0, s, CopyProtocol.Run(h, s, second))
  {
    BeginsOk(h, init, past, first);
    PathKeeps(h, CopyProtocol.Run(h, init, past), first);
    PathKeeps(h, CopyProtocol.Run(h, CopyProtocol.Run(h, init, past), first), second);
  }

  // ---- on a log of the destination --------------------------------------------------------

  /** A run of job `j` on the destination's log: it begins when the log is `lo` long and is cut off
      when it is `cut` long; `rest` would have come then. Its result would have been `r`. A run that
      came to its end is cut off there, with nothing to come. */
  datatype Stretch = Stretch(j: JobId, lo: nat, cut: nat, rest: seq<Action>, r: RunResult, c: Course)

  /** What the method Run guarantees of the log, its result and its course. */
  predicate IsStretch(h: Bytes -> Hash, honest: bool, init: State, log: seq<Action>, card: Card,
                      entries: seq<FileEntry>, x: Stretch) {
    && x.lo <= x.cut <= |log| && x.lo <= x.c.start
    && Legal(h, init, log[..x.lo]) && Legal(h, init, log[..x.cut]) && Legal(h, init, log[..x.cut] + x.rest)
    && var s0, t := CopyProtocol.Run(h, init, log[..x.lo]), CopyProtocol.Run(h, init, log[..x.cut] + x.rest);
    && Extends(s0, t) && Adds(h, honest, s0, t, x.j, card, entries, x.r)
    && Began(h, init, log[..x.cut] + x.rest, s0, x.j, card, entries, x.r.copied, x.c)
  }

  /** The stretch fits on the log. */
  predicate Fits(h: Bytes -> Hash, init: State, log: seq<Action>, x: Stretch) {
    && x.lo <= x.cut <= |log| && Legal(h, init, log[..x.lo]) && Legal(h, init, log[..x.cut])
    && |x.r.copied| == |x.r.dsts| == |x.c.views|
  }

  /** What became of it. */
  function Outcome(h: Bytes -> Hash, init: State, log: seq<Action>, x: Stretch): CardRun
    requires Fits(h, init, log, x)
  {
    CutOff(CopyProtocol.Run(h, init, log[..x.lo]), CopyProtocol.Run(h, init, log[..x.cut]), x.r, x.c)
  }

  lemma BeganBefore(h: Bytes -> Hash, init: State, first: seq<Action>, start: nat)
    requires Initial(init) && Legal(h, init, first) && start <= |first|
    ensures Legal(h, init, first[..start])
    ensures CopyProtocol.Run(h, init, first[..start]).rows <= CopyProtocol.Run(h, init, first).rows
  {
    assert Inv(h, init);
    assert first == first[..start] + first[start..];
    RunSplit(h, init, first[..start], first[start..]);
    RunKeeps(h, init, first[..start]);
    PathKeeps(h, CopyProtocol.Run(h, init, first[..start]), first[start..]);
  }

  lemma BeganAfter(h: Bytes -> Hash, init: State, first: seq<Action>, more: seq<Action>)
    requires Initial(init) && Legal(h, init, first + more)
    ensures Legal(h, init, first)
    ensures BeganOrNot(CopyProtocol.Run(h, init, first), CopyProtocol.Run(h, init, first + more))
  {
    assert Inv(h, init);
    RunSplit(h, init, first, more);
    RunKeeps(h, init, first);
    FinalsForever(h, CopyProtocol.Run(h, init, first), more);
  }

  lemma StretchBegan(h: Bytes -> Hash, init: State, first: seq<Action>, rest: seq<Action>, start: nat)
    requires Initial(init) && Legal(h, init, first) && start <= |first + rest|
    requires Legal(h, init, (first + rest)[..start])
    ensures BeganOrNot(CopyProtocol.Run(h, init, first), CopyProtocol.Run(h, init, (first + rest)[..start]))
  {
    if start <= |first| {
      assert (first + rest)[..start] == first[..start];
      BeganBefore(h, init, first, start);
    } else {
      assert (first + rest)[..start] == first + rest[..start - |first|];
      BeganAfter(h, init, first, rest[..start - |first|]);
    }
  }

  /** The outcome speaks of what was there: the index at both ends, every file of the run that was final by then,
      and those of them that had no row. */
  lemma OutcomeIs(s0: State, s: State, r: RunResult, c: Course, bound: nat, i: nat)
    requires |r.copied| == |r.dsts| == |c.views| && Increasing(r.copied, bound) && i < |r.dsts|
    ensures var run := CutOff(s0, s, r, c);
      && run.before == s0.rows && run.after == s.rows
      && (r.dsts[i] in s.receipts <==> r.copied[i] in run.copied)
      && (r.dsts[i] in s.receipts && !HasRow(s, r.dsts[i]) <==> r.copied[i] in run.missed)
  {
    var run, idx := CutOff(s0, s, r, c), ReachedAt(s, r.dsts);
    ReachedAre(s, r.dsts);
    if r.dsts[i] in s.receipts {
      var k :| 0 <= k < |idx| && idx[k] == i;
      assert run.copied[k] == r.copied[i];
    }
    if r.copied[i] in run.copied {
      var k :| 0 <= k < |idx| && run.copied[k] == r.copied[i];
      assert idx[k] == i && i in idx;
    }
  }

  /** Cut off after any step of anybody's, a run has copied files that were not indexed when they were
      decided about, and all of them have their row by now but for those whose insert failed, and
      one more at most: the one it had renamed and not recorded. */
  lemma CutAnywhere(h: Bytes -> Hash, honest: bool, init: State, log: seq<Action>, card: Card,
                    entries: seq<FileEntry>, x: Stretch)
    requires Initial(init) && IsStretch(h, honest, init, log, card, entries, x)
    ensures var run, s := Outcome(h, init, log, x), CopyProtocol.Run(h, init, log[..x.cut]);
      && IsRun(h, card, entries, run)
      && |run.missed| <= |Unwritten(s, x.r.copied, x.r.dsts)| + (if Waits(s, x.j) then 1 else 0)
    ensures var run, s := Outcome(h, init, log, x), CopyProtocol.Run(h, init, log[..x.cut]);
      && run.before == CopyProtocol.Run(h, init, log[..x.lo]).rows && run.after == s.rows
      && forall i :: 0 <= i < |x.r.dsts| ==>
           && (x.r.dsts[i] in s.receipts <==> x.r.copied[i] in run.copied)
           && (x.r.dsts[i] in s.receipts && !HasRow(s, x.r.dsts[i]) <==> x.r.copied[i] in run.missed)
  {
    var first := log[x.lo..x.cut];
    assert log[..x.cut] == log[..x.lo] + first;
    StretchBegan(h, init, log[..x.cut], x.rest, x.c.start);
    RunSplit(h, init, log[..x.cut], x.rest);
    RunSplit(h, init, log[..x.lo], first);
    CutIsMidway(h, init, log[..x.lo], first, x.rest);
    var s0, s := CopyProtocol.Run(h, init, log[..x.lo]), CopyProtocol.Run(h, init, log[..x.cut]);
    var mid := CopyProtocol.Run(h, init, (log[..x.cut] + x.rest)[..x.c.start]);
    MidwayIsRun(h, honest, s0, mid, s, CopyProtocol.Run(h, s, x.rest), x.j, card, entries, x.r, x.c);
    forall i | 0 <= i < |x.r.dsts|
      ensures x.r.dsts[i] in s.receipts <==> x.r.copied[i] in CutOff(s0, s, x.r, x.c).copied
      ensures x.r.dsts[i] in s.receipts && !HasRow(s, x.r.dsts[i]) <==>
                x.r.copied[i] in CutOff(s0, s, x.r, x.c).missed
    {
      OutcomeIs(s0, s, x.r, x.c, |entries|, i);
    }
  }

  lemma MidwayIsRun(h: Bytes -> Hash, honest: bool, s0: State, mid: State, s: State, t: State, j: JobId, card: Card,
                    entries: seq<FileEntry>, r: RunResult, c: Course)
    requires Midway(h, s0, s, t) && Adds(h, honest, s0, t, j, card, entries, r)
    requires Own(mid, j) == Own(s0, j) && BeganOrNot(s, mid)
    requires Undecided(h, card, s0.rows, mid.rows, entries, r.copied, c.views)
    ensures IsRun(h, card, entries, CutOff(s0, s, r, c))
    ensures |Missed(s, r.copied, r.dsts)| <= |Unwritten(s, r.copied, r.dsts)| + (if Waits(s, j) then 1 else 0)
  {
    CutIsRun(h, honest, s0, mid, s, t, j, card, entries, r, c);
    forall i | 0 <= i < |r.dsts| && r.dsts[i] in s.receipts ensures s.receipts[r.dsts[i]].owner == j {
      assert t.receipts[r.dsts[i]].owner == j;
    }
    MissedFew(s0, s, t, j, r.copied, r.dsts);
  }
}
