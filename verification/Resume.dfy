/** Resuming: what any runs on the same card copy together, one after the other or at the same time,
    each cut off anywhere, with other jobs filling the index in between. */
module Resume {
  import opened Jobs
  import opened Names
  import opened CopyProtocol
  import opened DestVolume
  import opened CrashLosses
  import opened Dedup
  import opened IngestRun
  import opened CutRuns

  predicate AreRuns(h: Bytes -> Hash, card: Card, entries: seq<FileEntry>, runs: seq<CardRun>) {
    forall i :: 0 <= i < |runs| ==> IsRun(h, card, entries, runs[i])
  }

  /** Run `a` was over before run `b` began. */
  predicate Precedes(a: CardRun, b: CardRun) {
    a.after <= b.before
  }

  /** The row of the file that run `a` copied as its `i`-th got in, but too late for run `b`, which had
      already decided about its own `k`-th. */
  predicate TooLate(h: Bytes -> Hash, card: Card, e: FileEntry, a: CardRun, i: nat, b: CardRun, k: nat)
    requires i < |a.dsts| && k < |b.views|
  {
    RowFor(h, card, a.after, a.dsts[i], e) && !RowFor(h, card, b.views[k], a.dsts[i], e) && !Precedes(a, b)
  }

  /** A file is copied by two runs only if one of them left it without a row, or each decided about it
      before the other's row was in. */
  lemma CopiedTwice(h: Bytes -> Hash, card: Card, entries: seq<FileEntry>, a: CardRun, b: CardRun, i: nat, k: nat)
    requires IsRun(h, card, entries, a) && IsRun(h, card, entries, b)
    requires i < |a.copied| && k < |b.copied| && a.copied[i] == b.copied[k]
    ensures var x := a.copied[i];
      || x in a.missed || x in b.missed
      || (TooLate(h, card, entries[x], a, i, b, k) && TooLate(h, card, entries[x], b, k, a, i))
  {
    var x := a.copied[i];
    if x !in a.missed && x !in b.missed {
      NotSeen(h, card, entries, a, b, i, k);
      NotSeen(h, card, entries, b, a, k, i);
    }
  }

  lemma NotSeen(h: Bytes -> Hash, card: Card, entries: seq<FileEntry>, a: CardRun, b: CardRun, i: nat, k: nat)
    requires IsRun(h, card, entries, a) && IsRun(h, card, entries, b)
    requires i < |a.copied| && k < |b.copied| && a.copied[i] == b.copied[k] && a.copied[i] !in a.missed
    ensures TooLate(h, card, entries[a.copied[i]], a, i, b, k)
  {
    var e, view := entries[a.copied[i]], b.views[k];
    if RowFor(h, card, view, a.dsts[i], e) {
      RowForIndexes(h, card, view, view, a.dsts[i], e);
    }
    if Precedes(a, b) {
      RowForIndexes(h, card, a.after, view, a.dsts[i], e);
    }
  }

  /** So after a run that is over, a file is copied again only if that run left it without a row. */
  lemma CopiedAgainOnlyIfMissed(h: Bytes -> Hash, card: Card, entries: seq<FileEntry>, a: CardRun, b: CardRun, x: nat)
    requires IsRun(h, card, entries, a) && IsRun(h, card, entries, b) && Precedes(a, b)
    requires x in a.copied && x in b.copied
    ensures x in a.missed
  {
    var i :| 0 <= i < |a.copied| && a.copied[i] == x;
    var k :| 0 <= k < |b.copied| && b.copied[k] == x;
    if x !in a.missed {
      NotSeen(h, card, entries, a, b, i, k);
    }
  }

  /** Once a run has left every file indexed, no later run copies anything. */
  lemma NothingAfterComplete(h: Bytes -> Hash, card: Card, entries: seq<FileEntry>, a: CardRun, b: CardRun)
    requires IsRun(h, card, entries, b) && Precedes(a, b) && AllIndexed(h, card, a.after, entries)
    ensures b.copied == []
  {
    if b.copied != [] {
      IndexedGrows(h, card, a.after, b.views[0], entries[b.copied[0]]);
    }
  }

  // ---- counting ---------------------------------------------------------------------------

  function TotalCopies(runs: seq<CardRun>): nat {
    if runs == [] then 0 else TotalCopies(runs[..|runs| - 1]) + |runs[|runs| - 1].copied|
  }

  function TotalMissed(runs: seq<CardRun>): nat {
    if runs == [] then 0 else TotalMissed(runs[..|runs| - 1]) + |runs[|runs| - 1].missed|
  }

  function Elements(s: seq<nat>): set<nat> {
    set x | x in s
  }

  /** The positions a run copied for good. */
  function Kept(r: CardRun): set<nat> {
    Elements(r.copied) - r.missed
  }

  /** The positions copied for good in some run. */
  function Settled(runs: seq<CardRun>): set<nat> {
    if runs == [] then {} else Settled(runs[..|runs| - 1]) + Kept(runs[|runs| - 1])
  }

  /** The positions the last run copied for good although another one did, too. */
  function LastRivals(runs: seq<CardRun>): set<nat>
    requires runs != []
  {
    Settled(runs[..|runs| - 1]) * Kept(runs[|runs| - 1])
  }

  function TotalRivals(runs: seq<CardRun>): nat {
    if runs == [] then 0 else TotalRivals(runs[..|runs| - 1]) + |LastRivals(runs)|
  }

  function Below(n: nat): (r: set<nat>)
    ensures |r| == n && forall x: nat :: x in r <==> x < n
  {
    if n == 0 then {} else Below(n - 1) + {n - 1}
  }

  lemma {:induction false} IncreasingCount(s: seq<nat>, bound: nat)
    requires Increasing(s, bound)
    ensures |Elements(s)| == |s|
  {
    if s != [] {
      var x, rest := s[|s| - 1], s[..|s| - 1];
      IncreasingCount(rest, x);
      assert s == rest + [x];
      assert Elements(s) == Elements(rest) + {x};
    }
  }

  lemma {:induction false} SettledInSome(runs: seq<CardRun>, x: nat)
    requires x in Settled(runs)
    ensures exists i :: 0 <= i < |runs| && x in Kept(runs[i])
  {
    var n := |runs| - 1;
    if x in Settled(runs[..n]) {
      SettledInSome(runs[..n], x);
      var i :| 0 <= i < n && x in Kept(runs[..n][i]);
      assert x in Kept(runs[i]);
    }
  }

  lemma KeptCount(h: Bytes -> Hash, card: Card, entries: seq<FileEntry>, r: CardRun)
    requires IsRun(h, card, entries, r)
    ensures |r.copied| == |Kept(r)| + |r.missed|
  {
    IncreasingCount(r.copied, |entries|);
    assert Elements(r.copied) == Kept(r) + r.missed;
  }

  /** Copies made are files copied for good, copies that missed the index, and copies for good of a
      file that another run copied for good, too. */
  lemma {:induction false} CopiesAreFiles(h: Bytes -> Hash, card: Card, entries: seq<FileEntry>, runs: seq<CardRun>)
    requires AreRuns(h, card, entries, runs)
    ensures TotalCopies(runs) == |Settled(runs)| + TotalMissed(runs) + TotalRivals(runs)
  {
    if runs != [] {
      var n := |runs| - 1;
      CopiesAreFiles(h, card, entries, runs[..n]);
      KeptCount(h, card, entries, runs[n]);
      UnionCount(Settled(runs[..n]), Kept(runs[n]));
    }
  }

  lemma UnionCount(a: set<nat>, b: set<nat>)
    ensures |a + b| + |a * b| == |a| + |b|
  {
    assert a + b == a + (b - a) && b == (b - a) + a * b;
  }

  /** All the runs together make no more copies than there are files, but for copies that missed the
      index and copies made by rivals. */
  lemma CopiesBounded(h: Bytes -> Hash, card: Card, entries: seq<FileEntry>, runs: seq<CardRun>)
    requires AreRuns(h, card, entries, runs)
    ensures TotalCopies(runs) <= |entries| + TotalMissed(runs) + TotalRivals(runs)
  {
    CopiesAreFiles(h, card, entries, runs);
    forall x | x in Settled(runs) ensures x in Below(|entries|) {
      SettledInSome(runs, x);
      var i :| 0 <= i < |runs| && x in Kept(runs[i]);
      assert IsRun(h, card, entries, runs[i]);
    }
    Smaller(Settled(runs), Below(|entries|));
  }

  /** A rival copy was made by two runs of which neither was over when the other began. */
  lemma RivalsOverlap(h: Bytes -> Hash, card: Card, entries: seq<FileEntry>, runs: seq<CardRun>, x: nat)
    returns (i: nat)
    requires AreRuns(h, card, entries, runs) && runs != [] && x in LastRivals(runs)
    ensures i < |runs| - 1 && x in Kept(runs[i])
    ensures !Precedes(runs[i], runs[|runs| - 1]) && !Precedes(runs[|runs| - 1], runs[i])
  {
    var n := |runs| - 1;
    SettledInSome(runs[..n], x);
    i :| 0 <= i < n && x in Kept(runs[..n][i]);
    assert IsRun(h, card, entries, runs[i]) && IsRun(h, card, entries, runs[n]);
    var a :| 0 <= a < |runs[i].copied| && runs[i].copied[a] == x;
    var b :| 0 <= b < |runs[n].copied| && runs[n].copied[b] == x;
    CopiedTwice(h, card, entries, runs[i], runs[n], a, b);
  }

  lemma {:induction false} NoRivals(h: Bytes -> Hash, card: Card, entries: seq<FileEntry>, runs: seq<CardRun>)
    requires AreRuns(h, card, entries, runs)
    requires forall i, k :: 0 <= i < k < |runs| ==> Precedes(runs[i], runs[k])
    ensures TotalRivals(runs) == 0
  {
    if runs != [] {
      NoRivals(h, card, entries, runs[..|runs| - 1]);
      if x :| x in LastRivals(runs) {
        var i := RivalsOverlap(h, card, entries, runs, x);
        assert false;
      }
    }
  }

  // ---- all on one log of the destination --------------------------------------------------

  /** Runs of different jobs on one log. */
  predicate AreStretches(h: Bytes -> Hash, honest: bool, init: State, log: seq<Action>, card: Card,
                         entries: seq<FileEntry>, xs: seq<Stretch>) {
    && Initial(init) && Legal(h, init, log)
    && AllFit(h, init, log, xs)
    && (forall i :: 0 <= i < |xs| ==> IsStretch(h, honest, init, log, card, entries, xs[i]))
    && (forall i, k :: 0 <= i < k < |xs| ==> xs[i].j != xs[k].j)
  }

  predicate AllFit(h: Bytes -> Hash, init: State, log: seq<Action>, xs: seq<Stretch>) {
    forall i :: 0 <= i < |xs| ==> Fits(h, init, log, xs[i])
  }

  function Outcomes(h: Bytes -> Hash, init: State, log: seq<Action>, xs: seq<Stretch>): (runs: seq<CardRun>)
    requires AllFit(h, init, log, xs)
    ensures |runs| == |xs|
  {
    seq(|xs|, i requires 0 <= i < |xs| => Outcome(h, init, log, xs[i]))
  }

  /** The files of job `j` whose insert failed. */
  function FailedOf(s: State, j: JobId): set<Path> {
    set p | p in s.orphans && s.orphans[p].InsertFailed? && p in s.receipts && s.receipts[p].owner == j
  }

  /** The files whose insert failed. */
  function FailedInserts(s: State): set<Path> {
    set p | p in s.orphans && s.orphans[p].InsertFailed?
  }

  /** The runs that were cut off while their copy waited for its row. */
  function CutWaiting(h: Bytes -> Hash, init: State, log: seq<Action>, xs: seq<Stretch>): nat
    requires AllFit(h, init, log, xs)
  {
    if xs == [] then 0
    else
      var x := xs[|xs| - 1];
      CutWaiting(h, init, log, xs[..|xs| - 1]) +
      (if Waits(CopyProtocol.Run(h, init, log[..x.cut]), x.j) then 1 else 0)
  }

  lemma {:induction false} PositionsOf(s: State, copied: seq<nat>, dsts: seq<Path>, paths: set<Path>)
    requires |copied| == |dsts| && forall i, k :: 0 <= i < k < |dsts| ==> dsts[i] != dsts[k]
    requires forall i :: 0 <= i < |dsts| && dsts[i] in s.orphans && s.orphans[dsts[i]].InsertFailed? ==>
               dsts[i] in paths
    ensures |Unwritten(s, copied, dsts)| <= |paths|
  {
    if dsts == [] {
      assert Unwritten(s, copied, dsts) == {};
    } else {
      var n := |dsts| - 1;
      var p, rest := dsts[n], Unwritten(s, copied[..n], dsts[..n]);
      if p in s.orphans && s.orphans[p].InsertFailed? {
        PositionsOf(s, copied[..n], dsts[..n], paths - {p});
        OneMorePosition(s, copied, dsts);
        Smaller(Unwritten(s, copied, dsts), rest + {copied[n]});
      } else {
        PositionsOf(s, copied[..n], dsts[..n], paths);
        OneMorePosition(s, copied, dsts);
      }
    }
  }

  lemma OneMorePosition(s: State, copied: seq<nat>, dsts: seq<Path>)
    requires |copied| == |dsts| > 0
    ensures var n := |dsts| - 1;
      var failed := dsts[n] in s.orphans && s.orphans[dsts[n]].InsertFailed?;
      Unwritten(s, copied, dsts) ==
        Unwritten(s, copied[..n], dsts[..n]) + (if failed then {copied[n]} else {})
  {
    var n := |dsts| - 1;
    forall x | x in Unwritten(s, copied[..n], dsts[..n]) ensures x in Unwritten(s, copied, dsts) {
      var i :| 0 <= i < n && dsts[..n][i] in s.orphans && s.orphans[dsts[..n][i]].InsertFailed? && copied[..n][i] == x;
      assert dsts[i] in s.orphans && copied[i] == x;
    }
    forall x | x in Unwritten(s, copied, dsts)
      ensures x in Unwritten(s, copied[..n], dsts[..n])
           || (x == copied[n] && dsts[n] in s.orphans && s.orphans[dsts[n]].InsertFailed?)
    {
      var i :| 0 <= i < |copied| && dsts[i] in s.orphans && s.orphans[dsts[i]].InsertFailed? && copied[i] == x;
      if i < n {
        assert dsts[..n][i] in s.orphans && copied[..n][i] == x;
      }
    }
  }

  lemma StepOrphans(h: Bytes -> Hash, s: State, a: Action, j: JobId)
    requires Inv(h, s) && Enabled(h, s, a)
    ensures FailedOf(s, j) <= FailedOf(Step(h, s, a), j)
  {
    if a.Rename? {
      RenameKeepsFiles(h, s, a);
      RenameOrphans(s, a.job, s.copies[a.job], j);
    } else if a.Record? {
      RecordOrphans(s, a.job, s.copies[a.job], a.ok, j);
    } else if a.Crash? {
      CrashOrphans(s, a.left, j);
    } else {
      StepSameLedger(h, s, a);
    }
  }

  lemma RenameOrphans(s: State, i: JobId, c: Copy, j: JobId)
    requires c.phase.Locked? && Path(c.dir, Candidate(c.entry.name, c.phase.k)) !in s.receipts
    ensures FailedOf(s, j) <= FailedOf(DoRename(s, i, c), j)
  {
  }

  lemma RecordOrphans(s: State, i: JobId, c: Copy, ok: bool, j: JobId)
    requires c.phase.Finished?
    ensures FailedOf(s, j) <= FailedOf(DoRecord(s, i, c, ok), j)
  {
  }

  lemma CrashOrphans(s: State, left: map<Path, File>, j: JobId)
    ensures FailedOf(s, j) <= FailedOf(DoCrash(s, left), j)
  {
  }

  lemma FailedOnward(h: Bytes -> Hash, init: State, first: seq<Action>, more: seq<Action>, j: JobId)
    requires Initial(init) && Legal(h, init, first + more)
    ensures Legal(h, init, first)
    ensures FailedOf(CopyProtocol.Run(h, init, first), j) <= FailedOf(CopyProtocol.Run(h, init, first + more), j)
  {
    assert Inv(h, init);
    RunSplit(h, init, first, more);
    RunKeeps(h, init, first);
    OrphansStay(h, CopyProtocol.Run(h, init, first), more, j);
  }

  lemma FailedStays(h: Bytes -> Hash, init: State, log: seq<Action>, k: nat, j: JobId)
    requires Initial(init) && Legal(h, init, log) && k <= |log| && Legal(h, init, log[..k])
    ensures |FailedOf(CopyProtocol.Run(h, init, log[..k]), j)| <= |FailedOf(CopyProtocol.Run(h, init, log), j)|
  {
    assert log == log[..k] + log[k..];
    FailedOnward(h, init, log[..k], log[k..], j);
    Smaller(FailedOf(CopyProtocol.Run(h, init, log[..k]), j), FailedOf(CopyProtocol.Run(h, init, log), j));
  }

  lemma {:induction false} OrphansStay(h: Bytes -> Hash, s: State, log: seq<Action>, j: JobId)
    requires Inv(h, s) && Legal(h, s, log)
    ensures FailedOf(s, j) <= FailedOf(CopyProtocol.Run(h, s, log), j)
  {
    if log != [] {
      var before := log[..|log| - 1];
      OrphansStay(h, s, before, j);
      RunKeeps(h, s, before);
      StepOrphans(h, CopyProtocol.Run(h, s, before), log[|log| - 1], j);
    }
  }

  /** What a cut run missed are failed inserts of its job, and one file more if it was waiting. */
  lemma StretchMisses(h: Bytes -> Hash, honest: bool, init: State, log: seq<Action>, card: Card,
                      entries: seq<FileEntry>, x: Stretch)
    requires Initial(init) && Legal(h, init, log) && IsStretch(h, honest, init, log, card, entries, x)
    ensures |Outcome(h, init, log, x).missed| <=
              |FailedOf(CopyProtocol.Run(h, init, log), x.j)|
              + (if Waits(CopyProtocol.Run(h, init, log[..x.cut]), x.j) then 1 else 0)
  {
    CutAnywhere(h, honest, init, log, card, entries, x);
    FailedStays(h, init, log, x.cut, x.j);
    CutFailed(h, honest, init, log, card, entries, x);
  }

  lemma CutFailed(h: Bytes -> Hash, honest: bool, init: State, log: seq<Action>, card: Card,
                  entries: seq<FileEntry>, x: Stretch)
    requires Initial(init) && IsStretch(h, honest, init, log, card, entries, x)
    ensures var s := CopyProtocol.Run(h, init, log[..x.cut]);
      |Unwritten(s, x.r.copied, x.r.dsts)| <= |FailedOf(s, x.j)|
  {
    var s, t := CopyProtocol.Run(h, init, log[..x.cut]), CopyProtocol.Run(h, init, log[..x.cut] + x.rest);
    assert Inv(h, init);
    RunSplit(h, init, log[..x.cut], x.rest);
    RunKeeps(h, init, log[..x.cut]);
    FinalsForever(h, s, x.rest);
    LedgerKept(h, init, log[..x.cut]);
    forall i | 0 <= i < |x.r.dsts| && x.r.dsts[i] in s.orphans && s.orphans[x.r.dsts[i]].InsertFailed?
      ensures x.r.dsts[i] in FailedOf(s, x.j)
    {
      assert t.receipts[x.r.dsts[i]] == s.receipts[x.r.dsts[i]];
    }
    PositionsOf(s, x.r.copied, x.r.dsts, FailedOf(s, x.j));
  }

  /** The files of the runs' jobs whose insert failed. */
  function FailedIn(s: State, xs: seq<Stretch>): set<Path> {
    if xs == [] then {} else FailedIn(s, xs[..|xs| - 1]) + FailedOf(s, xs[|xs| - 1].j)
  }

  lemma {:induction false} FailedInAre(s: State, xs: seq<Stretch>, p: Path)
    requires p in FailedIn(s, xs)
    ensures p in FailedInserts(s) && p in s.receipts
    ensures exists i :: 0 <= i < |xs| && xs[i].j == s.receipts[p].owner
  {
    var n := |xs| - 1;
    if p in FailedIn(s, xs[..n]) {
      FailedInAre(s, xs[..n], p);
      var i :| 0 <= i < n && xs[..n][i].j == s.receipts[p].owner;
      assert xs[i].j == s.receipts[p].owner;
    }
  }

  lemma FailedApart(s: State, xs: seq<Stretch>)
    requires xs != [] && forall i, k :: 0 <= i < k < |xs| ==> xs[i].j != xs[k].j
    ensures |FailedIn(s, xs)| == |FailedIn(s, xs[..|xs| - 1])| + |FailedOf(s, xs[|xs| - 1].j)|
  {
    var n := |xs| - 1;
    forall p | p in FailedIn(s, xs[..n]) ensures p !in FailedOf(s, xs[n].j) {
      FailedInAre(s, xs[..n], p);
      var i :| 0 <= i < n && xs[..n][i].j == s.receipts[p].owner;
      assert xs[i].j != xs[n].j;
    }
    assert FailedIn(s, xs[..n]) !! FailedOf(s, xs[n].j);
  }

  lemma OutcomesFront(h: Bytes -> Hash, init: State, log: seq<Action>, xs: seq<Stretch>)
    requires xs != [] && AllFit(h, init, log, xs)
    ensures AllFit(h, init, log, xs[..|xs| - 1])
    ensures var runs, front := Outcomes(h, init, log, xs), Outcomes(h, init, log, xs[..|xs| - 1]);
      TotalMissed(runs) == TotalMissed(front) + |runs[|xs| - 1].missed|
  {
    assert Outcomes(h, init, log, xs)[..|xs| - 1] == Outcomes(h, init, log, xs[..|xs| - 1]);
  }

  lemma StretchesFront(h: Bytes -> Hash, honest: bool, init: State, log: seq<Action>, card: Card,
                       entries: seq<FileEntry>, xs: seq<Stretch>)
    requires xs != [] && AreStretches(h, honest, init, log, card, entries, xs)
    ensures AreStretches(h, honest, init, log, card, entries, xs[..|xs| - 1])
    ensures IsStretch(h, honest, init, log, card, entries, xs[|xs| - 1])
  {
    var front := xs[..|xs| - 1];
    forall i | 0 <= i < |front| ensures IsStretch(h, honest, init, log, card, entries, front[i]) {
      assert front[i] == xs[i];
    }
  }

  lemma {:induction false} MissedInAll(h: Bytes -> Hash, honest: bool, init: State, log: seq<Action>, card: Card,
                                       entries: seq<FileEntry>, xs: seq<Stretch>)
    requires AreStretches(h, honest, init, log, card, entries, xs)
    ensures TotalMissed(Outcomes(h, init, log, xs)) <=
              |FailedIn(CopyProtocol.Run(h, init, log), xs)| + CutWaiting(h, init, log, xs)
  {
    if xs != [] {
      OutcomesFront(h, init, log, xs);
      StretchesFront(h, honest, init, log, card, entries, xs);
      MissedInAll(h, honest, init, log, card, entries, xs[..|xs| - 1]);
      StretchMisses(h, honest, init, log, card, entries, xs[|xs| - 1]);
      FailedApart(CopyProtocol.Run(h, init, log), xs);
    }
  }

  lemma OutcomesAreRuns(h: Bytes -> Hash, honest: bool, init: State, log: seq<Action>, card: Card,
                        entries: seq<FileEntry>, xs: seq<Stretch>)
    requires AreStretches(h, honest, init, log, card, entries, xs)
    ensures AreRuns(h, card, entries, Outcomes(h, init, log, xs))
  {
    forall i | 0 <= i < |xs| ensures IsRun(h, card, entries, Outcome(h, init, log, xs[i])) {
      CutAnywhere(h, honest, init, log, card, entries, xs[i]);
    }
  }

  /** Any runs on one card, whenever they ran and wherever they were cut off, make no more copies than
      there are files, but for one per failed insert, one per run cut off while its copy waited for
      its row, and those that rivals made. */
  lemma OneLogBound(h: Bytes -> Hash, honest: bool, init: State, log: seq<Action>, card: Card,
                    entries: seq<FileEntry>, xs: seq<Stretch>)
    requires AreStretches(h, honest, init, log, card, entries, xs)
    ensures var runs := Outcomes(h, init, log, xs);
      TotalCopies(runs) <= |entries| + |FailedInserts(CopyProtocol.Run(h, init, log))|
                             + CutWaiting(h, init, log, xs) + TotalRivals(runs)
  {
    var s := CopyProtocol.Run(h, init, log);
    OutcomesAreRuns(h, honest, init, log, card, entries, xs);
    CopiesBounded(h, card, entries, Outcomes(h, init, log, xs));
    MissedInAll(h, honest, init, log, card, entries, xs);
    forall p | p in FailedIn(s, xs) ensures p in FailedInserts(s) {
      FailedInAre(s, xs, p);
    }
    Smaller(FailedIn(s, xs), FailedInserts(s));
  }

  /** Runs one after the other have no rivals. */
  lemma ApartNoRivals(h: Bytes -> Hash, honest: bool, init: State, log: seq<Action>, card: Card,
                      entries: seq<FileEntry>, xs: seq<Stretch>)
    requires AreStretches(h, honest, init, log, card, entries, xs)
    requires forall i, k :: 0 <= i < k < |xs| ==> xs[i].cut <= xs[k].lo
    ensures TotalRivals(Outcomes(h, init, log, xs)) == 0
  {
    var runs := Outcomes(h, init, log, xs);
    OutcomesAreRuns(h, honest, init, log, card, entries, xs);
    forall i, k | 0 <= i < k < |xs| ensures Precedes(runs[i], runs[k]) {
      assert log[..xs[k].lo][..xs[i].cut] == log[..xs[i].cut];
      BeganBefore(h, init, log[..xs[k].lo], xs[i].cut);
    }
    NoRivals(h, card, entries, runs);
  }
}
