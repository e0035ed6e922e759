/** Finalized files without an index row: each is there because its insert failed, because its job
    is about to write the row, or because the process died in between. */
module CrashLosses {
  import opened Jobs
  import opened Names
  import opened CopyProtocol

  predicate HasRow(s: State, p: Path) {
    exists i :: 0 <= i < |s.rows| && s.rows[i].dst == p
  }

  /** Job `j` has renamed its file and not written the row yet. */
  predicate Waits(s: State, j: JobId) {
    j in s.copies && s.copies[j].phase.Finished?
  }

  /** Exactly one of: the file has its row, its job is about to write it, it will never get one. */
  predicate Explained(s: State, p: Path) {
    && (HasRow(s, p) || Held(s, p) || p in s.orphans)
    && !(HasRow(s, p) && Held(s, p)) && !(HasRow(s, p) && p in s.orphans) && !(Held(s, p) && p in s.orphans)
  }

  predicate WaitersOk(s: State) {
    forall j :: j in s.copies && Waits(s, j) ==>
      s.copies[j].phase.dst in s.receipts && s.receipts[s.copies[j].phase.dst].owner == j
  }

  predicate DeathsOk(s: State) {
    && (forall p :: p in s.orphans ==> p in s.receipts)
    && (forall p :: p in s.orphans && s.orphans[p].Died? ==> s.orphans[p].crash <= s.crashes)
    && (forall p, q :: p in s.orphans && q in s.orphans && SameDeath(s, p, q) ==> p == q)
  }

  /** The ledger of finalized files. */
  predicate Accounted(s: State) {
    (forall p :: p in s.receipts ==> Explained(s, p)) && WaitersOk(s) && DeathsOk(s)
  }

  /** The same crash hit the same job at both files. */
  predicate SameDeath(s: State, p: Path, q: Path)
    requires p in s.orphans && q in s.orphans
  {
    && s.orphans[p].Died? && s.orphans[p] == s.orphans[q]
    && p in s.receipts && q in s.receipts && s.receipts[p].owner == s.receipts[q].owner
  }

  /** Nothing the ledger speaks of changed. */
  predicate SameLedger(s: State, t: State) {
    && t.rows == s.rows && t.receipts == s.receipts && t.orphans == s.orphans && t.crashes == s.crashes
    && (forall j :: j in s.copies && Waits(s, j) ==> j in t.copies && t.copies[j] == s.copies[j])
    && (forall j :: j in t.copies && Waits(t, j) ==> j in s.copies && s.copies[j] == t.copies[j])
  }

  lemma SameHeld(s: State, t: State, p: Path)
    requires SameLedger(s, t)
    ensures Held(s, p) <==> Held(t, p)
  {
    if Held(s, p) {
      var j :| j in s.copies && s.copies[j].phase.Finished? && s.copies[j].phase.dst == p;
      assert Waits(s, j) && j in t.copies;
    }
    if Held(t, p) {
      var j :| j in t.copies && t.copies[j].phase.Finished? && t.copies[j].phase.dst == p;
      assert Waits(t, j) && j in s.copies;
    }
  }

  lemma SameLedgerKeeps(s: State, t: State)
    requires Accounted(s) && SameLedger(s, t)
    ensures Accounted(t)
  {
    forall p ensures (Held(s, p) <==> Held(t, p)) && (HasRow(s, p) <==> HasRow(t, p)) {
      SameHeld(s, t, p);
    }
  }

  lemma StepSameLedger(h: Bytes -> Hash, s: State, a: Action)
    requires Enabled(h, s, a) && !a.Rename? && !a.Record? && !a.Crash?
    ensures SameLedger(s, Step(h, s, a))
  {
  }

  lemma RenameExplains(s: State, j: JobId, c: Copy, p: Path)
    requires RowsOk(s) && DeathsOk(s) && j in s.copies && s.copies[j] == c && c.phase.Locked?
    requires Path(c.dir, Candidate(c.entry.name, c.phase.k)) !in s.receipts
    requires p in s.receipts ==> Explained(s, p)
    ensures p in DoRename(s, j, c).receipts ==> Explained(DoRename(s, j, c), p)
  {
    var t, dst := DoRename(s, j, c), Path(c.dir, Candidate(c.entry.name, c.phase.k));
    assert HasRow(t, p) <==> HasRow(s, p);
    if p == dst {
      assert t.copies[j].phase.Finished? && t.copies[j].phase.dst == dst;
      forall i | 0 <= i < |s.rows| ensures s.rows[i].dst != dst {
        assert RowOk(s, s.rows[i]);
      }
    } else {
      HeldElsewhere(s, t, j, p);
    }
  }

  lemma RenameKeepsLedger(s: State, j: JobId, c: Copy)
    requires Accounted(s) && RowsOk(s) && j in s.copies && s.copies[j] == c && c.phase.Locked?
    requires Path(c.dir, Candidate(c.entry.name, c.phase.k)) !in s.receipts
    ensures Accounted(DoRename(s, j, c))
  {
    var t := DoRename(s, j, c);
    forall p | p in t.receipts ensures Explained(t, p) {
      RenameExplains(s, j, c, p);
    }
    forall p, q | p in t.orphans && q in t.orphans && SameDeath(t, p, q) ensures p == q {
      assert SameDeath(s, p, q);
    }
  }

  /** Job `j` had and has no finalized file at `p`; the others are as they were. */
  lemma HeldElsewhere(s: State, t: State, j: JobId, p: Path)
    requires forall i :: i != j ==> (i in t.copies <==> i in s.copies) && (i in s.copies ==> t.copies[i] == s.copies[i])
    requires j in s.copies && s.copies[j].phase.Finished? ==> s.copies[j].phase.dst != p
    requires j in t.copies && t.copies[j].phase.Finished? ==> t.copies[j].phase.dst != p
    ensures Held(t, p) <==> Held(s, p)
  {
    if Held(s, p) {
      var i :| i in s.copies && s.copies[i].phase.Finished? && s.copies[i].phase.dst == p;
      assert i in t.copies && t.copies[i].phase.Finished? && t.copies[i].phase.dst == p;
    }
    if Held(t, p) {
      var i :| i in t.copies && t.copies[i].phase.Finished? && t.copies[i].phase.dst == p;
      assert i in s.copies && s.copies[i].phase.Finished? && s.copies[i].phase.dst == p;
    }
  }

  lemma RecordExplains(s: State, j: JobId, c: Copy, ok: bool, p: Path)
    requires Explained(s, p) && WaitersOk(s) && j in s.copies && s.copies[j] == c && c.phase.Finished?
    ensures Explained(DoRecord(s, j, c, ok), p)
  {
    var t, dst := DoRecord(s, j, c, ok), c.phase.dst;
    assert Waits(s, j);
    RowAdded(s, t, p);
    if p == dst {
      assert Held(s, dst);
      forall i | i in t.copies && t.copies[i].phase.Finished? ensures t.copies[i].phase.dst != dst {
        assert Waits(s, i) && s.copies[i] == t.copies[i];
      }
    } else {
      HeldElsewhere(s, t, j, p);
    }
  }

  lemma RecordKeepsLedger(s: State, j: JobId, c: Copy, ok: bool)
    requires Accounted(s) && j in s.copies && s.copies[j] == c && c.phase.Finished?
    ensures Accounted(DoRecord(s, j, c, ok))
  {
    var t := DoRecord(s, j, c, ok);
    assert Waits(s, j);
    forall p | p in t.receipts ensures Explained(t, p) {
      RecordExplains(s, j, c, ok, p);
    }
    forall i | i in t.copies && Waits(t, i) ensures t.copies[i].phase.dst in t.receipts {
      assert Waits(s, i);
    }
    forall p, q | p in t.orphans && q in t.orphans && SameDeath(t, p, q) ensures p == q {
      assert SameDeath(s, p, q);
    }
  }

  lemma RowAdded(s: State, t: State, p: Path)
    requires s.rows <= t.rows && |t.rows| <= |s.rows| + 1
    ensures HasRow(t, p) <==> HasRow(s, p) || (|t.rows| == |s.rows| + 1 && t.rows[|s.rows|].dst == p)
  {
    if HasRow(s, p) {
      var i :| 0 <= i < |s.rows| && s.rows[i].dst == p;
      assert t.rows[i].dst == p;
    }
    if HasRow(t, p) {
      var i :| 0 <= i < |t.rows| && t.rows[i].dst == p;
      assert i < |s.rows| ==> s.rows[i].dst == p;
    }
  }

  lemma CrashKeepsLedger(s: State, left: map<Path, File>)
    requires Accounted(s)
    ensures Accounted(DoCrash(s, left))
  {
    var t := DoCrash(s, left);
    forall p ensures !Held(t, p) && (HasRow(t, p) <==> HasRow(s, p)) {
    }
    forall p, q | p in t.orphans && q in t.orphans && SameDeath(t, p, q) ensures p == q {
      if p in s.orphans && q in s.orphans {
        assert SameDeath(s, p, q);
      } else if p !in s.orphans && q !in s.orphans {
        HeldByOwner(s, p);
        HeldByOwner(s, q);
      }
    }
  }

  lemma HeldByOwner(s: State, p: Path)
    requires WaitersOk(s) && Held(s, p)
    ensures p in s.receipts
    ensures var j := s.receipts[p].owner; Waits(s, j) && s.copies[j].phase.dst == p
  {
    var j :| j in s.copies && s.copies[j].phase.Finished? && s.copies[j].phase.dst == p;
    assert Waits(s, j);
  }

  lemma StepKeepsLedger(h: Bytes -> Hash, s: State, a: Action)
    requires Inv(h, s) && Accounted(s) && Enabled(h, s, a)
    ensures Accounted(Step(h, s, a))
  {
    if a.Rename? {
      RenameKeepsFiles(h, s, a);
      RenameKeepsLedger(s, a.job, s.copies[a.job]);
    } else if a.Record? {
      RecordKeepsLedger(s, a.job, s.copies[a.job], a.ok);
    } else if a.Crash? {
      CrashKeepsLedger(s, a.left);
    } else {
      StepSameLedger(h, s, a);
      SameLedgerKeeps(s, Step(h, s, a));
    }
  }

  /** In every run, crashes included, the ledger is in order. */
  lemma {:induction false} LedgerKept(h: Bytes -> Hash, init: State, log: seq<Action>)
    requires Initial(init) && Legal(h, init, log)
    ensures Accounted(Run(h, init, log))
  {
    if log != [] {
      var before := log[..|log| - 1];
      LedgerKept(h, init, before);
      assert Inv(h, init);
      RunKeeps(h, init, before);
      StepKeepsLedger(h, Run(h, init, before), log[|log| - 1]);
    }
  }

  /** A finalized file has an index row, or its own job has yet to write it, or its insert failed,
      or a crash came in between, and only one of these. A crash leaves at most one file of a job
      without a row. */
  lemma LossesExplained(h: Bytes -> Hash, init: State, log: seq<Action>, p: Path, q: Path)
    requires Initial(init) && Legal(h, init, log)
    ensures var s := Run(h, init, log);
      p in s.receipts ==>
        var j := s.receipts[p].owner;
        var waits := Waits(s, j) && s.copies[j].phase.dst == p;
        && (HasRow(s, p) || waits || p in s.orphans)
        && !(HasRow(s, p) && waits) && !(HasRow(s, p) && p in s.orphans) && !(waits && p in s.orphans)
        && (p in s.orphans && q in s.orphans && SameDeath(s, p, q) ==> q == p)
  {
    LedgerKept(h, init, log);
    var s := Run(h, init, log);
    if p in s.receipts {
      if Held(s, p) {
        HeldByOwner(s, p);
      }
      var j := s.receipts[p].owner;
      if Waits(s, j) && s.copies[j].phase.dst == p {
        assert Held(s, p);
      }
    }
  }

  lemma {:induction false} CrashesCounted(h: Bytes -> Hash, s: State, log: seq<Action>)
    requires Legal(h, s, log)
    ensures s.crashes <= Run(h, s, log).crashes
    ensures Run(h, s, log).crashes == s.crashes ==>
              forall p :: p in Run(h, s, log).orphans && Run(h, s, log).orphans[p].Died? ==> p in s.orphans
  {
    if log != [] {
      CrashesCounted(h, s, log[..|log| - 1]);
      StepDeaths(h, Run(h, s, log[..|log| - 1]), log[|log| - 1]);
    }
  }

  lemma StepDeaths(h: Bytes -> Hash, s: State, a: Action)
    requires Enabled(h, s, a)
    ensures var t := Step(h, s, a);
      && s.crashes <= t.crashes
      && (t.crashes == s.crashes ==> forall p :: p in t.orphans && t.orphans[p].Died? ==> p in s.orphans)
  {
  }
}
