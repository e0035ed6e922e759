/** What one job sees of the destination while the others keep working, and the destination
    as the object the copier works on. */
module DestVolume {
  import opened Text
  import opened Jobs
  import opened Names
  import opened CopyProtocol

  /** In the same life of the process: finalized files and index rows of `s` are all still there,
      unchanged, in `t`. */
  predicate Extends(s: State, t: State) {
    && t.crashes == s.crashes
    && (forall p :: p in s.files && !IsTmp(p) ==> p in t.files && t.files[p] == s.files[p])
    && (forall p :: p in s.receipts ==> p in t.receipts && t.receipts[p] == s.receipts[p])
    && s.rows <= t.rows
  }

  /** The files job `j` has finalized. */
  function Own(s: State, j: JobId): map<Path, Receipt> {
    map p | p in s.receipts && s.receipts[p].owner == j :: s.receipts[p]
  }

  /** The index rows job `j` has written. */
  function RowsOf(rows: seq<Row>, j: JobId): seq<Row> {
    if rows == [] then []
    else
      var r := rows[|rows| - 1];
      RowsOf(rows[..|rows| - 1], j) + (if r.job == j then [r] else [])
  }

  /** The tmp files job `j` failed to remove. */
  function Leaks(s: State, j: JobId): set<Path> {
    set p | p in s.leaked && s.leaked[p] == Some(j)
  }

  /** Steps of jobs other than `j`, within one life of the process. */
  predicate ByOthers(log: seq<Action>, j: JobId) {
    forall i :: 0 <= i < |log| ==> !log[i].Crash? && !log[i].Sweep? && log[i].job != j
  }

  /** Job `j`'s running copy, if any, and its tmp file are the same in `s` and `t`. */
  predicate SameCopy(s: State, t: State, j: JobId) {
    && (j in t.copies <==> j in s.copies)
    && (j in s.copies ==> t.copies[j] == s.copies[j])
    && (j in s.copies && s.copies[j].Live() && s.copies[j].Tmp() in s.files ==>
          s.copies[j].Tmp() in t.files && t.files[s.copies[j].Tmp()] == s.files[s.copies[j].Tmp()])
  }

  /** Nothing of job `j`'s changed between `s` and `t`. */
  predicate SameFor(s: State, t: State, j: JobId) {
    && SameCopy(s, t, j)
    && Own(t, j) == Own(s, j)
    && RowsOf(t.rows, j) == RowsOf(s.rows, j)
    && Leaks(t, j) <= Leaks(s, j)
  }

  lemma OtherBegin(h: Bytes -> Hash, s: State, a: Action, j: JobId)
    requires CopiesOk(h, s) && Enabled(h, s, a) && a.Begin? && a.job != j
    ensures SameCopy(s, Step(h, s, a), j)
  {
    if j in s.copies && s.copies[j].Tmp() == Path(a.dir, TmpName(a.entry.name, s.tmpSeq + 1)) {
      TmpNameInjective(s.copies[j].entry.name, s.copies[j].seqNo, a.entry.name, s.tmpSeq + 1);
    }
  }

  lemma OtherAct(h: Bytes -> Hash, s: State, a: Action, j: JobId)
    requires Enabled(h, s, a) && !a.Begin? && !a.Crash? && !a.Sweep? && a.job != j
    requires j in s.copies ==> s.copies[j].Tmp() != s.copies[a.job].Tmp()
    requires j in s.copies && a.Rename? ==>
               var c := s.copies[a.job]; s.copies[j].Tmp() != Path(c.dir, Candidate(c.entry.name, c.phase.k))
    ensures SameCopy(s, Step(h, s, a), j)
  {
  }

  lemma OtherStepCopy(h: Bytes -> Hash, s: State, a: Action, j: JobId)
    requires Inv(h, s) && Enabled(h, s, a) && !a.Crash? && !a.Sweep? && a.job != j
    ensures SameCopy(s, Step(h, s, a), j)
  {
    if a.Begin? {
      OtherBegin(h, s, a, j);
    } else {
      if j in s.copies {
        TmpsDistinct(h, s, a.job, j);
        if a.Rename? {
          RenameKeepsFiles(h, s, a);
        }
      }
      OtherAct(h, s, a, j);
    }
  }

  lemma OtherRenames(h: Bytes -> Hash, s: State, a: Action, j: JobId)
    requires Enabled(h, s, a) && a.Rename? && a.job != j
    requires var c := s.copies[a.job]; Path(c.dir, Candidate(c.entry.name, c.phase.k)) !in s.receipts
    ensures Own(Step(h, s, a), j) == Own(s, j) && Step(h, s, a).rows == s.rows
  {
  }

  lemma OtherRecords(h: Bytes -> Hash, s: State, a: Action, j: JobId)
    requires Enabled(h, s, a) && a.Record? && a.job != j
    ensures Step(h, s, a).receipts == s.receipts && RowsOf(Step(h, s, a).rows, j) == RowsOf(s.rows, j)
  {
    var t := Step(h, s, a);
    if a.ok {
      assert t.rows[..|t.rows| - 1] == s.rows;
    }
  }

  lemma OtherStepFinals(h: Bytes -> Hash, s: State, a: Action, j: JobId)
    requires Inv(h, s) && Enabled(h, s, a) && !a.Crash? && !a.Sweep? && a.job != j
    ensures Own(Step(h, s, a), j) == Own(s, j)
    ensures RowsOf(Step(h, s, a).rows, j) == RowsOf(s.rows, j)
  {
    if a.Rename? {
      RenameKeepsFiles(h, s, a);
      OtherRenames(h, s, a, j);
    } else if a.Record? {
      OtherRecords(h, s, a, j);
    } else {
      StepQuiet(h, s, a);
    }
  }

  lemma SameLife(h: Bytes -> Hash, s: State, a: Action)
    requires Enabled(h, s, a)
    ensures Step(h, s, a).crashes == s.crashes + (if a.Crash? then 1 else 0)
  {
  }

  lemma OtherStepLeaks(h: Bytes -> Hash, s: State, a: Action, j: JobId)
    requires Enabled(h, s, a) && !a.Crash? && !a.Sweep? && a.job != j
    ensures Leaks(Step(h, s, a), j) <= Leaks(s, j)
  {
  }

  /** Whatever the other jobs do, in any number of steps, job `j`'s copy, tmp file, finalized
      files and index rows stay as they are, and no finalized file of anybody is touched. */
  lemma {:induction false} Noninterference(h: Bytes -> Hash, s: State, log: seq<Action>, j: JobId)
    requires Inv(h, s) && Legal(h, s, log) && ByOthers(log, j)
    ensures Inv(h, Run(h, s, log)) && SameFor(s, Run(h, s, log), j) && Extends(s, Run(h, s, log))
  {
    RunKeeps(h, s, log);
    FinalsForever(h, s, log);
    if log != [] {
      var before, a := log[..|log| - 1], log[|log| - 1];
      Noninterference(h, s, before, j);
      OtherStepCopy(h, Run(h, s, before), a, j);
      OtherStepFinals(h, Run(h, s, before), a, j);
      OtherStepLeaks(h, Run(h, s, before), a, j);
      SameLife(h, Run(h, s, before), a);
    }
  }

  lemma {:induction false} RunConcat(h: Bytes -> Hash, s: State, first: seq<Action>, second: seq<Action>)
    requires Legal(h, s, first) && Legal(h, Run(h, s, first), second)
    ensures Legal(h, s, first + second) && Run(h, s, first + second) == Run(h, Run(h, s, first), second)
  {
    if second == [] {
      assert first + second == first;
    } else {
      var init := second[..|second| - 1];
      RunConcat(h, s, first, init);
      assert (first + second)[..|first + second| - 1] == first + init;
    }
  }

  lemma {:induction false} RunSplit(h: Bytes -> Hash, s: State, first: seq<Action>, second: seq<Action>)
    requires Legal(h, s, first + second)
    ensures Legal(h, s, first) && Legal(h, Run(h, s, first), second)
    ensures Run(h, s, first + second) == Run(h, Run(h, s, first), second)
  {
    if second == [] {
      assert first + second == first;
    } else {
      assert (first + second)[..|first + second| - 1] == first + second[..|second| - 1];
      RunSplit(h, s, first, second[..|second| - 1]);
    }
  }

  /** What job `j` may rely on while it only prepares a file: its finalized files and rows
      stay as they are, it leaks no tmp file, and nothing finalized is touched. */
  predicate Steady(s: State, t: State, j: JobId) {
    Extends(s, t) && Own(t, j) == Own(s, j) && RowsOf(t.rows, j) == RowsOf(s.rows, j) && Leaks(t, j) <= Leaks(s, j)
  }

  lemma SteadyTrans(s: State, t: State, u: State, j: JobId)
    requires Steady(s, t, j) && Steady(t, u, j)
    ensures Steady(s, u, j)
  {
  }

  lemma QuietSteady(s: State, t: State, j: JobId)
    requires Quiet(s, t) && t.crashes == s.crashes
    ensures Extends(s, t) && Own(t, j) == Own(s, j) && RowsOf(t.rows, j) == RowsOf(s.rows, j)
  {
  }

  lemma PrepareLeaks(h: Bytes -> Hash, s: State, a: Action, j: JobId)
    requires Enabled(h, s, a)
    requires a.Begin? || a.Transfer? || a.Seal? || a.Verify? || a.Pick? || (a.Abort? && a.removed)
    ensures Leaks(Step(h, s, a), j) <= Leaks(s, j)
  {
  }

  lemma PrepareSteady(h: Bytes -> Hash, s: State, a: Action, j: JobId)
    requires Inv(h, s) && Enabled(h, s, a)
    requires a.Begin? || a.Transfer? || a.Seal? || a.Verify? || a.Pick? || (a.Abort? && a.removed)
    ensures Steady(s, Step(h, s, a), j)
  {
    StepQuiet(h, s, a);
    SameLife(h, s, a);
    QuietSteady(s, Step(h, s, a), j);
    PrepareLeaks(h, s, a, j);
  }

  lemma RenameOwns(h: Bytes -> Hash, s: State, a: Action)
    requires Inv(h, s) && Enabled(h, s, a) && a.Rename?
    ensures var t, c := Step(h, s, a), s.copies[a.job];
      var dst := t.copies[a.job].phase.dst;
      && Own(t, a.job) == Own(s, a.job)[dst := Receipt(a.job, c.entry, c.paranoid, c.content, c.faithful, c.phase.sum)]
      && dst !in s.files && dst !in s.receipts && !IsTmp(dst)
  {
    RenameKeepsFiles(h, s, a);
    var c := s.copies[a.job];
    OwnAfterRename(s, a.job, c);
  }

  lemma OwnAfterRename(s: State, j: JobId, c: Copy)
    requires c.phase.Locked? && Path(c.dir, Candidate(c.entry.name, c.phase.k)) !in s.receipts
    ensures Own(DoRename(s, j, c), j) == Own(s, j)[Path(c.dir, Candidate(c.entry.name, c.phase.k)) :=
              Receipt(j, c.entry, c.paranoid, c.content, c.faithful, c.phase.sum)]
  {
  }

  lemma RecordAdds(h: Bytes -> Hash, s: State, a: Action)
    requires Inv(h, s) && Enabled(h, s, a) && a.Record?
    ensures var t, c := Step(h, s, a), s.copies[a.job];
      && Own(t, a.job) == Own(s, a.job) && t.leaked == s.leaked
      && RowsOf(t.rows, a.job) == RowsOf(s.rows, a.job) +
           (if a.ok then [Row(a.job, c.entry.src, c.phase.dst, c.entry.size, c.entry.mtime, c.phase.sum)] else [])
  {
    var t := Step(h, s, a);
    if a.ok {
      assert t.rows[..|t.rows| - 1] == s.rows;
    }
  }

  /** The names tried for `name` before the `k`-th are taken in `dir`. */
  predicate Taken(s: State, dir: string, name: string, k: nat) {
    forall i :: 0 <= i < k ==> Path(dir, Candidate(name, i)) in s.files
  }

  lemma TakenStays(s: State, t: State, dir: string, name: string, k: nat)
    requires Taken(s, dir, name, k) && Extends(s, t) && !IsTmpName(name)
    ensures Taken(t, dir, name, k)
  {
    forall i | 0 <= i < k ensures Path(dir, Candidate(name, i)) in t.files {
      CandidateTmp(name, i);
      assert Path(dir, Candidate(name, i)) in s.files;
    }
  }

  /** The destination volume. `st` is its state; `log` is the history that led there. */
  class Destination {
    const h: Bytes -> Hash
    const honest: bool    // the medium stores the bytes it is given
    const removes: bool   // removing a file never fails
    const smooth: bool    // no other call fails, and no write is short
    var st: State
    ghost const init: State
    ghost var log: seq<Action>

    ghost predicate Valid()
      reads this
    {
      Initial(init) && Legal(h, init, log) && st == Run(h, init, log)
    }

    lemma Invariant()
      requires Valid()
      ensures Inv(h, st)
    {
      RunKeeps(h, init, log);
    }

    constructor (h: Bytes -> Hash, honest: bool, removes: bool, smooth: bool, start: State)
      requires Initial(start)
      ensures Valid() && st == start && log == [] && this.h == h
      ensures this.honest == honest && this.removes == removes && this.smooth == smooth
    {
      this.h, this.honest, this.removes, this.smooth := h, honest, removes, smooth;
      st, init, log := start, start, [];
    }

    /** One atomic step of the protocol, other than a crash. */
    method Do(a: Action)
      requires Valid() && Enabled(h, st, a) && !a.Crash?
      modifies this
      ensures Valid() && st == Step(h, old(st), a) && log == old(log) + [a]
      ensures Extends(old(st), st)
    {
      Invariant();
      StepKeepsFinals(h, st, a);
      SameLife(h, st, a);
      assert (log + [a])[..|log|] == log;
      st := Step(h, st, a);
      log := log + [a];
    }

    /** The process dies. What a crash may destroy, `left` lacks. */
    method Die(left: map<Path, File>)
      requires Valid() && Enabled(h, st, Crash(left))
      modifies this
      ensures Valid() && old(log) <= log && st.copies == map[] && st.crashes == old(st.crashes) + 1
      ensures st.rows == old(st.rows) && st.receipts == old(st.receipts)
      ensures forall p :: p in old(st.files) && !IsTmp(p) ==> p in st.files && st.files[p] == old(st.files[p])
    {
      Invariant();
      StepKeepsFinals(h, st, Crash(left));
      assert (log + [Crash(left)])[..|log|] == log;
      st := Step(h, st, Crash(left));
      log := log + [Crash(left)];
    }

    /** The other jobs take any number of steps. */
    method Interfere(j: JobId)
      requires Valid()
      modifies this
      ensures Valid() && old(log) <= log && SameFor(old(st), st, j) && Steady(old(st), st, j)
      ensures ByOthers(log[|old(log)|..], j)
    {
      var acts: seq<Action> := *;
      if Legal(h, st, acts) && ByOthers(acts, j) {
        Invariant();
        Noninterference(h, st, acts, j);
        RunConcat(h, init, log, acts);
        st := Run(h, st, acts);
        log := log + acts;
      }
    }

    // Each operation of job `j` below first lets the other jobs take any number of steps.

    /** A step of job `j` that finalizes nothing. */
    method Prepare(a: Action)
      requires Valid() && Enabled(h, st, a)
      requires a.Begin? || a.Transfer? || a.Seal? || a.Verify? || a.Pick?
      modifies this
      ensures Valid() && old(log) <= log && st == Step(h, old(st), a) && Steady(old(st), st, a.job)
    {
      Invariant();
      PrepareSteady(h, st, a, a.job);
      Do(a);
    }

    /** Creates the tmp file under the next sequence number. */
    method CreateTmp(j: JobId, e: FileEntry, dir: string, paranoid: bool, content: Bytes)
      requires Valid() && j !in st.copies && !IsTmpName(e.name) && e.size == |content|
      modifies this
      ensures Valid() && old(log) <= log && Steady(old(st), st, j)
      ensures j in st.copies
      ensures st.copies[j] == Copy(e, dir, paranoid, content, st.copies[j].seqNo, [], true, Writing)
    {
      Interfere(j);
      ghost var s := st;
      Prepare(Begin(j, e, dir, paranoid, content));
      SteadyTrans(old(st), s, st, j);
    }

    /** Hands `chunk` to the medium; `n` bytes are stored. An honest medium stores what it is given. */
    method Write(j: JobId, chunk: Bytes) returns (n: nat)
      requires Valid() && j in st.copies && st.copies[j].phase.Writing?
      requires st.copies[j].read + chunk <= st.copies[j].content
      modifies this
      ensures Valid() && old(log) <= log && Steady(old(st), st, j) && n <= |chunk| && j in st.copies
      ensures var c, c0 := st.copies[j], old(st.copies[j]);
        && c == c0.(read := c0.read + chunk, faithful := c.faithful,
                    phase := if n == |chunk| then Writing else Broken)
        && (honest && c0.faithful ==> c.faithful)
      ensures smooth ==> n == |chunk|
    {
      var stored: Bytes := *;
      if |stored| > |chunk| || (honest && !(stored <= chunk)) || (smooth && |stored| < |chunk|) {
        stored := chunk;
      }
      n := |stored|;
      Interfere(j);
      ghost var s := st;
      Prepare(Transfer(j, chunk, stored));
      SteadyTrans(old(st), s, st, j);
    }

    /** Syncs and closes the tmp file; from here on a crash cannot touch its bytes. */
    method SyncTmp(j: JobId)
      requires Valid() && j in st.copies && st.copies[j].phase.Writing? && st.copies[j].read == st.copies[j].content
      modifies this
      ensures Valid() && old(log) <= log && Steady(old(st), st, j) && j in st.copies
      ensures st.copies[j] == old(st.copies[j]).(phase := Synced(h(old(st.copies[j].read))))
    {
      Interfere(j);
      ghost var s := st;
      Prepare(Seal(j));
      SteadyTrans(old(st), s, st, j);
    }

    /** What a reader of the tmp file would find in it. */
    function Stored(j: JobId): Bytes
      requires j in st.copies
      reads this
    {
      DataAt(st, st.copies[j].Tmp())
    }

    method MarkVerified(j: JobId)
      requires Valid() && j in st.copies && st.copies[j].phase.Synced?
      requires var c := st.copies[j];
        && (c.entry.knownHash.Some? ==> c.entry.knownHash.value == c.phase.sum)
        && (c.paranoid ==> h(Stored(j)) == c.phase.sum)
      modifies this
      ensures Valid() && old(log) <= log && Steady(old(st), st, j) && j in st.copies
      ensures st.copies[j] == old(st.copies[j]).(phase := Verified(old(st.copies[j].phase.sum)))
    {
      Prepare(Verify(j));
    }

    /** Takes the rename lock and picks the first free name. */
    method PickName(j: JobId)
      requires Valid() && j in st.copies && st.copies[j].phase.Verified?
      modifies this
      ensures Valid() && old(log) <= log && Steady(old(st), st, j) && j in st.copies
      ensures st.copies[j].phase.Locked?
      ensures st.copies[j] == old(st.copies[j]).(phase := Locked(old(st.copies[j].phase.sum), st.copies[j].phase.k))
      ensures var c := st.copies[j]; Taken(st, c.dir, c.entry.name, c.phase.k)
    {
      AwaitLock(j);
      ghost var s := st;
      var free, k := PickFreeName(NamesIn(st, st.copies[j].dir), st.copies[j].entry.name);
      assert Taken(s, st.copies[j].dir, st.copies[j].entry.name, k);
      Prepare(Pick(j, k));
      SteadyTrans(old(st), s, st, j);
    }

    /** Renames the tmp file to the picked name, and releases the lock. */
    method RenameTmp(j: JobId) returns (dst: Path)
      requires Valid() && j in st.copies && st.copies[j].phase.Locked?
      modifies this
      ensures Valid() && old(log) <= log && Extends(old(st), st) && j in st.copies
      ensures var c := old(st.copies[j]);
        && st.copies[j] == c.(phase := Finished(c.phase.sum, dst))
        && Own(st, j) == Own(old(st), j)[dst := Receipt(j, c.entry, c.paranoid, c.content, c.faithful, c.phase.sum)]
      ensures var c := old(st.copies[j]); dst == Path(c.dir, Candidate(c.entry.name, c.phase.k)) && !IsTmp(dst)
      ensures dst !in old(st.files) && dst !in old(st.receipts)
      ensures RowsOf(st.rows, j) == RowsOf(old(st.rows), j) && Leaks(st, j) <= Leaks(old(st), j)
    {
      Interfere(j);
      Invariant();
      RenameOwns(h, st, CopyProtocol.Rename(j));
      var c := st.copies[j];
      dst := Path(c.dir, Candidate(c.entry.name, c.phase.k));
      Do(CopyProtocol.Rename(j));
    }

    /** Writes the index row of the file just finalized; the insert may fail. */
    method InsertRow(j: JobId) returns (ok: bool)
      requires Valid() && j in st.copies && st.copies[j].phase.Finished?
      modifies this
      ensures Valid() && old(log) <= log && Extends(old(st), st) && j !in st.copies
      ensures Own(st, j) == Own(old(st), j) && Leaks(st, j) <= Leaks(old(st), j)
      ensures var c := old(st.copies[j]);
        RowsOf(st.rows, j) == RowsOf(old(st.rows), j) +
          (if ok then [Row(j, c.entry.src, c.phase.dst, c.entry.size, c.entry.mtime, c.phase.sum)] else [])
      ensures smooth ==> ok
    {
      ok := *;
      ok := ok || smooth;
      Interfere(j);
      Invariant();
      RecordAdds(h, st, Record(j, ok));
      Do(Record(j, ok));
    }

    /** Cleanup after a failure: the tmp file goes away unless removing it fails too. */
    method Cleanup(j: JobId)
      requires Valid() && j in st.copies && st.copies[j].Live()
      modifies this
      ensures Valid() && old(log) <= log && j !in st.copies && Extends(old(st), st)
      ensures Own(st, j) == Own(old(st), j) && RowsOf(st.rows, j) == RowsOf(old(st.rows), j)
      ensures removes ==> Leaks(st, j) <= Leaks(old(st), j)
    {
      var works: bool := *;
      var a := Abort(j, removes || works);
      Interfere(j);
      Invariant();
      StepQuiet(h, st, a);
      SameLife(h, st, a);
      QuietSteady(st, Step(h, st, a), j);
      if a.removed {
        PrepareLeaks(h, st, a, j);
      }
      Do(a);
    }

    /** Acquires the rename lock: if another job holds it, that job finishes its rename or
        gives up first. */
    method AwaitLock(j: JobId)
      requires Valid() && j in st.copies && !st.copies[j].phase.Locked?
      modifies this
      ensures Valid() && old(log) <= log && st.lock.None? && SameFor(old(st), st, j) && Extends(old(st), st)
    {
      Interfere(j);
      if st.lock.Some? {
        Invariant();
        var i := st.lock.value;
        var renamed: bool := *;
        var a := if renamed then Rename(i) else Abort(i, true);
        OtherStepCopy(h, st, a, j);
        OtherStepFinals(h, st, a, j);
        OtherStepLeaks(h, st, a, j);
        Do(a);
      }
    }
  }
}
