/** Two runs on one card at once: whatever the destination and the file, both may copy it. */
module Twins {
  import opened Text
  import opened Jobs
  import opened Names
  import opened CopyProtocol
  import opened DestVolume
  import opened CrashLosses
  import opened JobEvents
  import opened Dedup
  import opened JobRunner
  import opened IngestRun
  import opened CutRuns
  import opened Resume

  // ---- a copy nothing gets in the way of --------------------------------------------------

  predicate Leads(h: Bytes -> Hash, s: State, log: seq<Action>, t: State) {
    Legal(h, s, log) && CopyProtocol.Run(h, s, log) == t
  }

  lemma Then(h: Bytes -> Hash, s: State, log: seq<Action>, m: State, a: Action, t: State)
    returns (longer: seq<Action>)
    requires Leads(h, s, log, m) && Enabled(h, m, a) && Step(h, m, a) == t
    ensures Leads(h, s, longer, t) && longer == log + [a]
  {
    longer := log + [a];
    assert longer[..|log|] == log;
  }

  /** No copy is running. */
  predicate AtRest(s: State) {
    s.copies == map[] && s.lock.None?
  }

  /** The copy of `e` in its phase, all of `read` read. */
  function CopyIn(s: State, e: FileEntry, dir: string, content: Bytes, read: Bytes, phase: Phase): Copy {
    Copy(e, dir, false, content, s.tmpSeq + 1, read, true, phase)
  }

  /** State `s`, but for that copy and its tmp file. */
  function Alone(s: State, j: JobId, c: Copy, f: File): State {
    s.(tmpSeq := s.tmpSeq + 1, files := s.files[c.Tmp() := f], copies := map[j := c],
       leaked := s.leaked - {c.Tmp()}, lock := if c.phase.Locked? then Some(j) else None)
  }

  /** State `s`, but for the file copied under its `k`-th name. */
  function Copied(h: Bytes -> Hash, s: State, j: JobId, e: FileEntry, dir: string, content: Bytes, k: nat): State {
    var tmp, dst := Path(dir, TmpName(e.name, s.tmpSeq + 1)), Path(dir, Candidate(e.name, k));
    s.(tmpSeq := s.tmpSeq + 1, files := (s.files - {tmp})[dst := File(content, |content|)],
       leaked := s.leaked - {tmp},
       rows := s.rows + [Row(j, e.src, dst, e.size, e.mtime, h(content))],
       receipts := s.receipts[dst := Receipt(j, e, false, content, true, h(content))])
  }

  lemma Opens(h: Bytes -> Hash, s: State, j: JobId, e: FileEntry, dir: string, content: Bytes)
    returns (log: seq<Action>)
    requires AtRest(s) && !IsTmpName(e.name) && e.size == |content|
    ensures Leads(h, s, log, Alone(s, j, CopyIn(s, e, dir, content, [], Writing), File([], 0))) && |log| == 1
  {
    log := Then(h, s, [], s, Begin(j, e, dir, false, content),
                Alone(s, j, CopyIn(s, e, dir, content, [], Writing), File([], 0)));
  }

  lemma Reads(h: Bytes -> Hash, s: State, log: seq<Action>, j: JobId, e: FileEntry, dir: string, content: Bytes)
    returns (longer: seq<Action>)
    requires AtRest(s)
    requires Leads(h, s, log, Alone(s, j, CopyIn(s, e, dir, content, [], Writing), File([], 0)))
    ensures Leads(h, s, longer, Alone(s, j, CopyIn(s, e, dir, content, content, Writing), File(content, 0)))
    ensures |longer| == |log| + 1
  {
    assert [] + content == content;
    longer := Then(h, s, log, Alone(s, j, CopyIn(s, e, dir, content, [], Writing), File([], 0)),
                   Transfer(j, content, content),
                   Alone(s, j, CopyIn(s, e, dir, content, content, Writing), File(content, 0)));
  }

  lemma Seals(h: Bytes -> Hash, s: State, log: seq<Action>, j: JobId, e: FileEntry, dir: string, content: Bytes)
    returns (longer: seq<Action>)
    requires AtRest(s)
    requires Leads(h, s, log, Alone(s, j, CopyIn(s, e, dir, content, content, Writing), File(content, 0)))
    ensures Leads(h, s, longer, Alone(s, j, CopyIn(s, e, dir, content, content, Synced(h(content))),
                                      File(content, |content|)))
    ensures |longer| == |log| + 1
  {
    longer := Then(h, s, log, Alone(s, j, CopyIn(s, e, dir, content, content, Writing), File(content, 0)), Seal(j),
                   Alone(s, j, CopyIn(s, e, dir, content, content, Synced(h(content))), File(content, |content|)));
  }

  lemma Checks(h: Bytes -> Hash, s: State, log: seq<Action>, j: JobId, e: FileEntry, dir: string, content: Bytes)
    returns (longer: seq<Action>)
    requires AtRest(s) && e.knownHash.None?
    requires Leads(h, s, log, Alone(s, j, CopyIn(s, e, dir, content, content, Synced(h(content))),
                                    File(content, |content|)))
    ensures Leads(h, s, longer, Alone(s, j, CopyIn(s, e, dir, content, content, Verified(h(content))),
                                      File(content, |content|)))
    ensures |longer| == |log| + 1
  {
    var f := File(content, |content|);
    longer := Then(h, s, log, Alone(s, j, CopyIn(s, e, dir, content, content, Synced(h(content))), f), Verify(j),
                   Alone(s, j, CopyIn(s, e, dir, content, content, Verified(h(content))), f));
  }

  lemma FreeName(taken: set<string>, name: string, k: nat) returns (free: nat)
    requires forall i :: 0 <= i < k ==> Candidate(name, i) in taken
    ensures FirstFree(taken, name, free)
    decreases |taken| + 1 - k
  {
    Pigeonhole(taken, name, k);
    if Candidate(name, k) in taken {
      Pigeonhole(taken, name, k + 1);
      free := FreeName(taken, name, k + 1);
    } else {
      free := k;
    }
  }

  lemma Picks(h: Bytes -> Hash, s: State, log: seq<Action>, j: JobId, e: FileEntry, dir: string, content: Bytes)
    returns (longer: seq<Action>, k: nat)
    requires AtRest(s)
    requires Leads(h, s, log, Alone(s, j, CopyIn(s, e, dir, content, content, Verified(h(content))),
                                    File(content, |content|)))
    ensures Leads(h, s, longer, Alone(s, j, CopyIn(s, e, dir, content, content, Locked(h(content), k)),
                                      File(content, |content|)))
    ensures Path(dir, Candidate(e.name, k)) !in s.files && |longer| == |log| + 1
  {
    var m := Alone(s, j, CopyIn(s, e, dir, content, content, Verified(h(content))), File(content, |content|));
    k := FreeName(NamesIn(m, dir), e.name, 0);
    assert Path(dir, Candidate(e.name, k)) !in m.files;
    longer := Then(h, s, log, m, Pick(j, k),
                   Alone(s, j, CopyIn(s, e, dir, content, content, Locked(h(content), k)), File(content, |content|)));
  }

  /** The file is renamed and has no row yet. */
  function Renamed(h: Bytes -> Hash, s: State, j: JobId, e: FileEntry, dir: string, content: Bytes, k: nat): State {
    var c := CopyIn(s, e, dir, content, content, Finished(h(content), Path(dir, Candidate(e.name, k))));
    Copied(h, s, j, e, dir, content, k).(copies := map[j := c], rows := s.rows)
  }

  lemma RenameStep(h: Bytes -> Hash, s: State, j: JobId, e: FileEntry, dir: string, content: Bytes, k: nat)
    requires AtRest(s)
    ensures var c := CopyIn(s, e, dir, content, content, Locked(h(content), k));
      DoRename(Alone(s, j, c, File(content, |content|)), j, c) == Renamed(h, s, j, e, dir, content, k)
  {
  }

  lemma Renames(h: Bytes -> Hash, s: State, log: seq<Action>, j: JobId, e: FileEntry, dir: string, content: Bytes,
                k: nat) returns (longer: seq<Action>)
    requires AtRest(s)
    requires Leads(h, s, log, Alone(s, j, CopyIn(s, e, dir, content, content, Locked(h(content), k)),
                                    File(content, |content|)))
    ensures Leads(h, s, longer, Renamed(h, s, j, e, dir, content, k)) && |longer| == |log| + 1
  {
    RenameStep(h, s, j, e, dir, content, k);
    longer := Then(h, s, log, Alone(s, j, CopyIn(s, e, dir, content, content, Locked(h(content), k)),
                                    File(content, |content|)),
                   Rename(j), Renamed(h, s, j, e, dir, content, k));
  }

  lemma Records(h: Bytes -> Hash, s: State, log: seq<Action>, j: JobId, e: FileEntry, dir: string, content: Bytes,
                k: nat) returns (longer: seq<Action>)
    requires AtRest(s) && Leads(h, s, log, Renamed(h, s, j, e, dir, content, k))
    ensures Leads(h, s, longer, Copied(h, s, j, e, dir, content, k)) && |longer| == |log| + 1
  {
    longer := Then(h, s, log, Renamed(h, s, j, e, dir, content, k), Record(j, true),
                   Copied(h, s, j, e, dir, content, k));
  }

  /** With no copy running, any file can be copied to any directory: nothing the destination holds
      stands in the way. */
  lemma CopyGoesThrough(h: Bytes -> Hash, s: State, j: JobId, e: FileEntry, dir: string, content: Bytes)
    returns (log: seq<Action>, k: nat)
    requires AtRest(s) && !IsTmpName(e.name) && e.size == |content| && e.knownHash.None?
    ensures Leads(h, s, log, Copied(h, s, j, e, dir, content, k))
    ensures Path(dir, Candidate(e.name, k)) !in s.files
  {
    log := Opens(h, s, j, e, dir, content);
    log := Reads(h, s, log, j, e, dir, content);
    log := Seals(h, s, log, j, e, dir, content);
    log := Checks(h, s, log, j, e, dir, content);
    log, k := Picks(h, s, log, j, e, dir, content);
    log := Renames(h, s, log, j, e, dir, content, k);
    log := Records(h, s, log, j, e, dir, content, k);
  }

  lemma CopiedIsIngested(h: Bytes -> Hash, honest: bool, s: State, j: JobId, e: FileEntry, dir: string,
                         content: Bytes, k: nat)
    requires FilesOk(h, s) && AtRest(s) && !IsTmpName(e.name) && e.size == |content| && e.knownHash.None?
    requires Path(dir, Candidate(e.name, k)) !in s.files
    ensures var t, dst := Copied(h, s, j, e, dir, content, k), Path(dir, Candidate(e.name, k));
      AtRest(t) && Extends(s, t) && Ingested(h, honest, t, j, dst, e, content) && HasRow(t, dst)
  {
    var t, dst := Copied(h, s, j, e, dir, content, k), Path(dir, Candidate(e.name, k));
    CandidateTmp(e.name, k);
    var tmp := TmpName(e.name, s.tmpSeq + 1);
    assert IsTmpName(tmp);
    assert t.rows[|s.rows|].dst == dst;
  }

  // ---- two runs ---------------------------------------------------------------------------

  /** The run of job `j` that decided at the very start and put its one file at `dst`. */
  function RunTo(j: JobId, cut: nat, dst: Path): Stretch {
    Stretch(j, 0, cut, [], RunResult(Ended(Done), true, [0], [dst], [true]), Course(true, None, 0, [[]]))
  }

  /** State `t`, which came from `init`, has the row of the one file of job `j`. */
  predicate HasCopy(h: Bytes -> Hash, honest: bool, init: State, t: State, card: Card, e: FileEntry, j: JobId,
                    dst: Path) {
    && Extends(init, t) && Ingested(h, honest, t, j, dst, e, card(e.src)) && Indexed(h, card, t.rows, e)
    && HasRow(t, dst) && (forall p :: p in t.receipts && t.receipts[p].owner == j ==> p == dst)
  }

  lemma OneFileRun(h: Bytes -> Hash, honest: bool, init: State, log: seq<Action>, cut: nat, card: Card, e: FileEntry,
                   j: JobId, dst: Path)
    requires Initial(init) && cut <= |log| && Legal(h, init, log[..cut])
    requires HasCopy(h, honest, init, CopyProtocol.Run(h, init, log[..cut]), card, e, j, dst)
    ensures IsStretch(h, honest, init, log, card, [e], RunTo(j, cut, dst))
  {
    assert log[..cut] + [] == log[..cut];
    assert log[..0] == [] && (log[..cut] + [])[..0] == [];
    var r, c := RunTo(j, cut, dst).r, RunTo(j, cut, dst).c;
    OneFileAdds(h, honest, init, CopyProtocol.Run(h, init, log[..cut]), card, e, j, dst, r);
    BeganThen(h, init, [], log[..cut], init, j, card, [e], [0], c);
  }

  lemma OneFileAdds(h: Bytes -> Hash, honest: bool, init: State, t: State, card: Card, e: FileEntry, j: JobId,
                    dst: Path, r: RunResult)
    requires Initial(init) && HasCopy(h, honest, init, t, card, e, j, dst)
    requires r.copied == [0] && r.dsts == [dst] && r.recorded == [true]
    ensures Adds(h, honest, init, t, j, card, [e], r)
  {
  }

  lemma OneFileOutcome(s0: State, t: State, dst: Path, r: RunResult, c: Course)
    requires dst in t.receipts && HasRow(t, dst) && r.copied == [0] && r.dsts == [dst] && |c.views| == 1
    ensures CutOff(s0, t, r, c).copied == [0] && CutOff(s0, t, r, c).missed == {}
  {
    assert [dst][..0] == [];
    assert ReachedAt(t, [dst]) == [0];
  }

  lemma OneMoreRun(runs: seq<CardRun>, r: CardRun)
    ensures TotalCopies(runs + [r]) == TotalCopies(runs) + |r.copied|
    ensures TotalRivals(runs + [r]) == TotalRivals(runs) + |Settled(runs) * Kept(r)|
    ensures Settled(runs + [r]) == Settled(runs) + Kept(r)
  {
    assert (runs + [r])[..|runs|] == runs;
  }

  lemma TwinsCount(a: CardRun, b: CardRun)
    requires a.copied == b.copied == [0] && a.missed == b.missed == {}
    ensures TotalCopies([a, b]) == 2 && TotalRivals([a, b]) == 1
  {
    OneMoreRun([], a);
    OneMoreRun([a], b);
    assert [] + [a] == [a] && [a] + [b] == [a, b];
    assert Kept(a) == {0} && Kept(b) == {0};
    assert {} * Kept(a) == {} && {0} * Kept(b) == {0};
  }

  /** A copy that went through, from a state that came from `init` without the job. */
  lemma CopiedHas(h: Bytes -> Hash, honest: bool, init: State, s: State, card: Card, e: FileEntry, dir: string,
                  j: JobId, k: nat)
    requires FilesOk(h, s) && AtRest(s) && Extends(init, s) && ScannedEntry(card, e)
    requires Path(dir, Candidate(e.name, k)) !in s.files
    requires forall p :: p in s.receipts ==> s.receipts[p].owner != j
    ensures var t := Copied(h, s, j, e, dir, card(e.src), k);
      && AtRest(t) && t.orphans == s.orphans
      && HasCopy(h, honest, init, t, card, e, j, Path(dir, Candidate(e.name, k)))
  {
    var t := Copied(h, s, j, e, dir, card(e.src), k);
    CopiedIsIngested(h, honest, s, j, e, dir, card(e.src), k);
    ExtendsTrans(init, s, t);
    assert t.rows[|s.rows|].hash == h(card(e.src));
  }

  lemma OneCopies(h: Bytes -> Hash, honest: bool, init: State, log: seq<Action>, card: Card, e: FileEntry, dir: string,
                  j: JobId) returns (longer: seq<Action>, dst: Path)
    requires Inv(h, init) && Legal(h, init, log) && ScannedEntry(card, e)
    requires var s := CopyProtocol.Run(h, init, log);
      AtRest(s) && Extends(init, s) && forall p :: p in s.receipts ==> s.receipts[p].owner != j
    ensures log <= longer && Legal(h, init, longer)
    ensures var s, t := CopyProtocol.Run(h, init, log), CopyProtocol.Run(h, init, longer);
      && AtRest(t) && t.orphans == s.orphans && HasCopy(h, honest, init, t, card, e, j, dst)
      && (forall p :: p in t.receipts ==> p in s.receipts || p == dst)
      && (forall p :: p in s.receipts ==> p in t.receipts && t.receipts[p] == s.receipts[p])
  {
    var s := CopyProtocol.Run(h, init, log);
    RunKeeps(h, init, log);
    var more, k := CopyGoesThrough(h, s, j, e, dir, card(e.src));
    CopiedHas(h, honest, init, s, card, e, dir, j, k);
    RunConcat(h, init, log, more);
    longer, dst := log + more, Path(dir, Candidate(e.name, k));
  }

  /** One after the other, with both decisions made at the start. */
  lemma BothCopy(h: Bytes -> Hash, honest: bool, init: State, card: Card, e: FileEntry, dir: string, i: JobId, j: JobId)
    returns (first: seq<Action>, log: seq<Action>, p: Path, q: Path)
    requires Initial(init) && ScannedEntry(card, e) && i != j
    ensures first <= log && Legal(h, init, first) && Legal(h, init, log)
    ensures var s := CopyProtocol.Run(h, init, first); HasCopy(h, honest, init, s, card, e, i, p) && AtRest(s)
    ensures var t := CopyProtocol.Run(h, init, log);
      HasCopy(h, honest, init, t, card, e, j, q) && AtRest(t) && t.orphans == map[] && t.crashes == 0
  {
    assert Inv(h, init);
    first, p := OneCopies(h, honest, init, [], card, e, dir, i);
    log, q := OneCopies(h, honest, init, first, card, e, dir, j);
  }

  lemma AllFitMore(h: Bytes -> Hash, init: State, log: seq<Action>, xs: seq<Stretch>, x: Stretch)
    requires AllFit(h, init, log, xs) && Fits(h, init, log, x)
    ensures AllFit(h, init, log, xs + [x])
  {
    var more := xs + [x];
    forall i | 0 <= i < |more| ensures Fits(h, init, log, more[i]) {
      assert more[i] == if i < |xs| then xs[i] else x;
    }
  }

  lemma OneMoreStretch(h: Bytes -> Hash, honest: bool, init: State, log: seq<Action>, card: Card,
                       entries: seq<FileEntry>, xs: seq<Stretch>, x: Stretch)
    requires AreStretches(h, honest, init, log, card, entries, xs)
    requires Fits(h, init, log, x) && IsStretch(h, honest, init, log, card, entries, x)
    requires forall i :: 0 <= i < |xs| ==> xs[i].j != x.j
    ensures AreStretches(h, honest, init, log, card, entries, xs + [x])
  {
    var more := xs + [x];
    AllFitMore(h, init, log, xs, x);
    forall i | 0 <= i < |more| ensures IsStretch(h, honest, init, log, card, entries, more[i]) {
      assert more[i] == if i < |xs| then xs[i] else x;
    }
  }

  lemma NobodyWaits(h: Bytes -> Hash, init: State, log: seq<Action>, x: Stretch, y: Stretch)
    requires Fits(h, init, log, x) && Fits(h, init, log, y)
    requires AtRest(CopyProtocol.Run(h, init, log[..x.cut])) && AtRest(CopyProtocol.Run(h, init, log[..y.cut]))
    ensures AllFit(h, init, log, [x, y]) && CutWaiting(h, init, log, [x, y]) == 0
  {
    assert [x, y][..1] == [x] && [x][..0] == [];
    assert CutWaiting(h, init, log, [x]) == 0;
  }

  lemma TwinsOutcome(h: Bytes -> Hash, init: State, log: seq<Action>, x: Stretch, y: Stretch)
    requires Fits(h, init, log, x) && Fits(h, init, log, y)
    requires var a, b := Outcome(h, init, log, x), Outcome(h, init, log, y);
      a.copied == b.copied == [0] && a.missed == b.missed == {}
    requires AtRest(CopyProtocol.Run(h, init, log[..x.cut])) && AtRest(CopyProtocol.Run(h, init, log[..y.cut]))
    ensures AllFit(h, init, log, [x, y]) && CutWaiting(h, init, log, [x, y]) == 0
    ensures var runs := Outcomes(h, init, log, [x, y]); TotalCopies(runs) == 2 && TotalRivals(runs) == 1
  {
    NobodyWaits(h, init, log, x, y);
    TwinsCount(Outcome(h, init, log, x), Outcome(h, init, log, y));
    assert Outcomes(h, init, log, [x, y]) == [Outcome(h, init, log, x), Outcome(h, init, log, y)];
  }

  lemma OneFitsAndEnds(h: Bytes -> Hash, honest: bool, init: State, log: seq<Action>, cut: nat, card: Card,
                       e: FileEntry, j: JobId, dst: Path)
    requires Initial(init) && cut <= |log| && Legal(h, init, log[..cut])
    requires HasCopy(h, honest, init, CopyProtocol.Run(h, init, log[..cut]), card, e, j, dst)
    ensures var x := RunTo(j, cut, dst);
      && Fits(h, init, log, x) && IsStretch(h, honest, init, log, card, [e], x)
      && Outcome(h, init, log, x).copied == [0] && Outcome(h, init, log, x).missed == {}
  {
    var x := RunTo(j, cut, dst);
    assert log[..0] == [];
    OneFileRun(h, honest, init, log, cut, card, e, j, dst);
    OneFileOutcome(init, CopyProtocol.Run(h, init, log[..cut]), dst, x.r, x.c);
  }

  lemma OneMoreRunTo(h: Bytes -> Hash, honest: bool, init: State, log: seq<Action>, cut: nat, card: Card,
                     e: FileEntry, j: JobId, dst: Path, xs: seq<Stretch>)
    requires AreStretches(h, honest, init, log, card, [e], xs) && forall i :: 0 <= i < |xs| ==> xs[i].j != j
    requires cut <= |log| && Legal(h, init, log[..cut])
    requires HasCopy(h, honest, init, CopyProtocol.Run(h, init, log[..cut]), card, e, j, dst)
    ensures var x := RunTo(j, cut, dst);
      && AreStretches(h, honest, init, log, card, [e], xs + [x]) && Fits(h, init, log, x)
      && Outcome(h, init, log, x).copied == [0] && Outcome(h, init, log, x).missed == {}
  {
    OneFitsAndEnds(h, honest, init, log, cut, card, e, j, dst);
    OneMoreStretch(h, honest, init, log, card, [e], xs, RunTo(j, cut, dst));
  }

  lemma NoStretches(h: Bytes -> Hash, honest: bool, init: State, log: seq<Action>, card: Card, entries: seq<FileEntry>)
    requires Initial(init) && Legal(h, init, log)
    ensures AreStretches(h, honest, init, log, card, entries, [])
  {
  }

  lemma TwinStretches(h: Bytes -> Hash, honest: bool, init: State, log: seq<Action>, cut: nat, card: Card, e: FileEntry,
                      i: JobId, j: JobId, p: Path, q: Path)
    requires AreStretches(h, honest, init, log, card, [e], []) && i != j && cut <= |log| && Legal(h, init, log[..cut])
    requires HasCopy(h, honest, init, CopyProtocol.Run(h, init, log[..cut]), card, e, i, p)
    requires HasCopy(h, honest, init, CopyProtocol.Run(h, init, log), card, e, j, q)
    ensures var x, y := RunTo(i, cut, p), RunTo(j, |log|, q);
      && AreStretches(h, honest, init, log, card, [e], [x, y]) && Fits(h, init, log, x) && Fits(h, init, log, y)
      && Outcome(h, init, log, x).copied == Outcome(h, init, log, y).copied == [0]
      && Outcome(h, init, log, x).missed == Outcome(h, init, log, y).missed == {}
  {
    assert log[..|log|] == log;
    var x, y := RunTo(i, cut, p), RunTo(j, |log|, q);
    assert [] + [x] == [x] && [x] + [y] == [x, y];
    OneMoreRunTo(h, honest, init, log, cut, card, e, i, p, []);
    OneMoreRunTo(h, honest, init, log, |log|, card, e, j, q, [x]);
  }

  lemma TwinRuns(h: Bytes -> Hash, honest: bool, init: State, first: seq<Action>, log: seq<Action>, card: Card,
                 e: FileEntry, i: JobId, j: JobId, p: Path, q: Path) returns (xs: seq<Stretch>)
    requires Initial(init) && i != j && first <= log && Legal(h, init, first) && Legal(h, init, log)
    requires var s := CopyProtocol.Run(h, init, first); HasCopy(h, honest, init, s, card, e, i, p) && AtRest(s)
    requires var t := CopyProtocol.Run(h, init, log); HasCopy(h, honest, init, t, card, e, j, q) && AtRest(t)
    ensures AreStretches(h, honest, init, log, card, [e], xs) && CutWaiting(h, init, log, xs) == 0
    ensures TotalCopies(Outcomes(h, init, log, xs)) == 2 && TotalRivals(Outcomes(h, init, log, xs)) == 1
  {
    assert log[..|log|] == log && log[..|first|] == first;
    var x, y := RunTo(i, |first|, p), RunTo(j, |log|, q);
    xs := [x, y];
    NoStretches(h, honest, init, log, card, [e]);
    TwinStretches(h, honest, init, log, |first|, card, e, i, j, p, q);
    TwinsOutcome(h, init, log, x, y);
  }

  /** Whatever the destination holds and whatever the file: two runs that both decided before either
      had copied put it there twice, each with its row, with no insert failing and nobody dying. */
  lemma TwinsCopyTwice(h: Bytes -> Hash, honest: bool, init: State, card: Card, e: FileEntry, dir: string, i: JobId,
                       j: JobId) returns (log: seq<Action>, xs: seq<Stretch>)
    requires Initial(init) && ScannedEntry(card, e) && i != j
    ensures AreStretches(h, honest, init, log, card, [e], xs)
    ensures CopyProtocol.Run(h, init, log).crashes == 0 && CopyProtocol.Run(h, init, log).orphans == map[]
    ensures CutWaiting(h, init, log, xs) == 0
    ensures TotalCopies(Outcomes(h, init, log, xs)) == 2 && TotalRivals(Outcomes(h, init, log, xs)) == 1
  {
    var first, p, q;
    first, log, p, q := BothCopy(h, honest, init, card, e, dir, i, j);
    xs := TwinRuns(h, honest, init, first, log, card, e, i, j, p, q);
  }
}
