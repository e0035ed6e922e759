/** The copy protocol as a step system: any number of jobs copy files into one destination,
    interleaved at every file-system operation, with crashes and boot sweeps in between.

    `h` stands for XXH3-64: nothing is assumed about it. Assumptions on the file system: a
    crash keeps every byte covered by a completed sync and may destroy anything else of a
    file; a rename is one atomic and durable step; nobody else writes to the destination. */
module CopyProtocol {
  import opened Text
  import opened Jobs
  import opened Names

  newtype byte = b: int | 0 <= b < 256
  type Bytes = seq<byte>
  type Hash = string
  /** One source file found on the card. `mtime` is the canonical key of its timestamp. */
  datatype FileEntry = FileEntry(src: string, name: string, size: nat, mtime: string, knownHash: Option<Hash>)

  datatype Path = Path(dir: string, name: string)

  /** Stored bytes, and how many of them a crash cannot touch. */
  datatype File = File(data: Bytes, synced: nat)

  datatype Phase =
    | Writing                          // the source is being read into the tmp file
    | Broken                           // a write came up short; only cleanup can follow
    | Synced(sum: Hash)                // source read to its end, tmp synced and closed
    | Verified(sum: Hash)              // hash checks passed
    | Locked(sum: Hash, k: nat)        // holds the rename lock and has picked candidate k
    | Finished(sum: Hash, dst: Path)   // renamed; the index row is not written yet

  /** One running copy of a file holding `content`. `read` is what the source delivered so far,
      which is also what the incremental hash has absorbed; `faithful` says the medium stored
      exactly that. */
  datatype Copy = Copy(entry: FileEntry, dir: string, paranoid: bool, content: Bytes, seqNo: nat,
                       read: Bytes, faithful: bool, phase: Phase)
  {
    function Tmp(): Path { Path(dir, TmpName(entry.name, seqNo)) }
    predicate Live() { !phase.Finished? }
  }

  /** What is known of a file this system finalized; `content` is the whole source file. */
  datatype Receipt = Receipt(owner: JobId, entry: FileEntry, paranoid: bool, content: Bytes, faithful: bool,
                             sum: Hash)

  /** Why a finalized file has no index row: the insert failed, or the process died before it. */
  datatype Orphan = InsertFailed | Died(crash: nat)

  /** A row of the permanent dedup index. */
  datatype Row = Row(job: JobId, src: string, dst: Path, size: nat, mtime: string, hash: Hash)

  /** The last five are history: finalized files, files that were there first, tmp files left
      behind by a removal that failed (with the job it failed for) or by a crash, finalized files
      that never got their index row, and the number of crashes. */
  datatype State = State(files: map<Path, File>, tmpSeq: nat, lock: Option<JobId>, copies: map<JobId, Copy>,
                         rows: seq<Row>, receipts: map<Path, Receipt>, original: map<Path, Bytes>,
                         leaked: map<Path, Option<JobId>>, orphans: map<Path, Orphan>, crashes: nat)

  datatype Action =
    | Begin(job: JobId, entry: FileEntry, dir: string, paranoid: bool, content: Bytes)
    | Transfer(job: JobId, chunk: Bytes, stored: Bytes)
    | Seal(job: JobId)
    | Verify(job: JobId)
    | Pick(job: JobId, k: nat)
    | Rename(job: JobId)
    | Abort(job: JobId, removed: bool)
    | Record(job: JobId, ok: bool)
    | Crash(left: map<Path, File>)
    | Sweep(kept: set<Path>)

  predicate IsTmp(p: Path) { IsTmpName(p.name) }

  /** The names an Lstat in `dir` would find. */
  function NamesIn(s: State, dir: string): set<string> {
    set p | p in s.files && p.dir == dir :: p.name
  }

  predicate Survives(before: File, after: File) {
    && before.synced <= |before.data|
    && after.synced == before.synced <= |after.data|
    && after.data[..before.synced] == before.data[..before.synced]
    && (before.synced == |before.data| ==> after == before)
  }

  /** Contents of the file at `p`, which the guards below only ask for when it exists. */
  function DataAt(s: State, p: Path): Bytes {
    if p in s.files then s.files[p].data else []
  }

  predicate Enabled(h: Bytes -> Hash, s: State, a: Action) {
    match a
    case Begin(j, e, dir, _, content) => j !in s.copies && !IsTmpName(e.name) && e.size == |content|
    case Transfer(j, chunk, stored) =>
      && j in s.copies && s.copies[j].phase.Writing? && |stored| <= |chunk|
      && s.copies[j].read + chunk <= s.copies[j].content
    case Seal(j) => j in s.copies && s.copies[j].phase.Writing? && s.copies[j].read == s.copies[j].content
    case Verify(j) =>
      && j in s.copies && s.copies[j].phase.Synced?
      && var c := s.copies[j];
      && (c.entry.knownHash.Some? ==> c.entry.knownHash.value == c.phase.sum)
      && (c.paranoid ==> h(DataAt(s, c.Tmp())) == c.phase.sum)
    case Pick(j, k) =>
      && j in s.copies && s.copies[j].phase.Verified? && s.lock.None?
      && FirstFree(NamesIn(s, s.copies[j].dir), s.copies[j].entry.name, k)
    case Rename(j) => j in s.copies && s.copies[j].phase.Locked?
    case Abort(j, _) => j in s.copies && s.copies[j].Live()
    case Record(j, _) => j in s.copies && s.copies[j].phase.Finished?
    case Crash(left) =>
      && left.Keys <= s.files.Keys
      && (forall p :: p in s.files && !IsTmp(p) ==> p in left)
      && (forall p :: p in left ==> Survives(s.files[p], left[p]))
    case Sweep(_) => s.copies == map[]
  }

  function DoBegin(s: State, j: JobId, e: FileEntry, dir: string, paranoid: bool, content: Bytes): State {
    var c := Copy(e, dir, paranoid, content, s.tmpSeq + 1, [], true, Writing);
    s.(tmpSeq := s.tmpSeq + 1, files := s.files[c.Tmp() := File([], 0)], copies := s.copies[j := c],
       leaked := s.leaked - {c.Tmp()})
  }

  function DoTransfer(s: State, j: JobId, c: Copy, chunk: Bytes, stored: Bytes): State {
    s.(files := s.files[c.Tmp() := File(DataAt(s, c.Tmp()) + stored, 0)],
       copies := s.copies[j := c.(read := c.read + chunk,
                                  faithful := c.faithful && stored <= chunk,
                                  phase := if |stored| == |chunk| then Writing else Broken)])
  }

  function DoSeal(h: Bytes -> Hash, s: State, j: JobId, c: Copy): State {
    var data := DataAt(s, c.Tmp());
    s.(files := s.files[c.Tmp() := File(data, |data|)],
       copies := s.copies[j := c.(phase := Synced(h(c.read)))])
  }

  function DoPick(s: State, j: JobId, c: Copy, k: nat): State
    requires c.phase.Verified?
  {
    s.(lock := Some(j), copies := s.copies[j := c.(phase := Locked(c.phase.sum, k))])
  }

  function DoRename(s: State, j: JobId, c: Copy): State
    requires c.phase.Locked?
  {
    var dst := Path(c.dir, Candidate(c.entry.name, c.phase.k));
    var moved := if c.Tmp() in s.files then s.files[c.Tmp()] else File([], 0);
    s.(files := (s.files - {c.Tmp()})[dst := moved], lock := None,
       copies := s.copies[j := c.(phase := Finished(c.phase.sum, dst))],
       receipts := s.receipts[dst := Receipt(j, c.entry, c.paranoid, c.content, c.faithful, c.phase.sum)])
  }

  function DoAbort(s: State, j: JobId, c: Copy, removed: bool): State {
    s.(files := if removed then s.files - {c.Tmp()} else s.files,
       lock := if c.phase.Locked? then None else s.lock,
       copies := s.copies - {j},
       leaked := if removed then s.leaked else s.leaked[c.Tmp() := Some(j)])
  }

  function DoRecord(s: State, j: JobId, c: Copy, ok: bool): State
    requires c.phase.Finished?
  {
    var row := Row(j, c.entry.src, c.phase.dst, c.entry.size, c.entry.mtime, c.phase.sum);
    s.(rows := if ok then s.rows + [row] else s.rows, copies := s.copies - {j},
       orphans := if ok then s.orphans else s.orphans[c.phase.dst := InsertFailed])
  }

  /** The file at `p` is finalized and waits for its index row. */
  predicate Held(s: State, p: Path) {
    exists j :: j in s.copies && s.copies[j].phase.Finished? && s.copies[j].phase.dst == p
  }

  function DoCrash(s: State, left: map<Path, File>): State {
    s.(files := left, tmpSeq := 0, lock := None, copies := map[],
       leaked := map p | p in left && IsTmp(p) :: None, crashes := s.crashes + 1,
       orphans := map p | p in s.receipts && (p in s.orphans || Held(s, p)) ::
         if p in s.orphans then s.orphans[p] else Died(s.crashes + 1))
  }

  function Step(h: Bytes -> Hash, s: State, a: Action): State
    requires Enabled(h, s, a)
  {
    match a
    case Begin(j, e, dir, paranoid, content) => DoBegin(s, j, e, dir, paranoid, content)
    case Transfer(j, chunk, stored) => DoTransfer(s, j, s.copies[j], chunk, stored)
    case Seal(j) => DoSeal(h, s, j, s.copies[j])
    case Verify(j) => s.(copies := s.copies[j := s.copies[j].(phase := Verified(s.copies[j].phase.sum))])
    case Pick(j, k) => DoPick(s, j, s.copies[j], k)
    case Rename(j) => DoRename(s, j, s.copies[j])
    case Abort(j, removed) => DoAbort(s, j, s.copies[j], removed)
    case Record(j, ok) => DoRecord(s, j, s.copies[j], ok)
    case Crash(left) => DoCrash(s, left)
    case Sweep(kept) => s.(files := map p | p in s.files && (!IsTmp(p) || p in kept) :: s.files[p])
  }

  /** Every action of `log`, in order, is enabled where it happens. */
  predicate Legal(h: Bytes -> Hash, s: State, log: seq<Action>)
    decreases |log|, 0
  {
    log == [] ||
    (Legal(h, s, log[..|log| - 1]) && Enabled(h, Run(h, s, log[..|log| - 1]), log[|log| - 1]))
  }

  function Run(h: Bytes -> Hash, s: State, log: seq<Action>): State
    requires Legal(h, s, log)
    decreases |log|, 1
  {
    if log == [] then s else Step(h, Run(h, s, log[..|log| - 1]), log[|log| - 1])
  }

  // ---- the invariant --------------------------------------------------------------------

  /** The tmp file of a live copy holds what the copy has read, as far as the medium is honest. */
  predicate CopyOk(h: Bytes -> Hash, s: State, c: Copy) {
    && 1 <= c.seqNo <= s.tmpSeq
    && !IsTmpName(c.entry.name) && c.entry.size == |c.content| && c.read <= c.content
    && (c.Live() ==> c.Tmp() in s.files)
    && (c.Live() && c.faithful ==> DataAt(s, c.Tmp()) <= c.read)
    && (c.phase.Writing? ==> |DataAt(s, c.Tmp())| == |c.read|)
    && (c.phase.Synced? || c.phase.Verified? || c.phase.Locked? ==>
          && c.read == c.content && c.phase.sum == h(c.content)
          && |DataAt(s, c.Tmp())| == |c.read| == s.files[c.Tmp()].synced)
    && (c.phase.Verified? || c.phase.Locked? ==>
          && (c.entry.knownHash.Some? ==> c.entry.knownHash.value == c.phase.sum)
          && (c.paranoid ==> h(DataAt(s, c.Tmp())) == c.phase.sum))
    && (c.phase.Locked? ==> Path(c.dir, Candidate(c.entry.name, c.phase.k)) !in s.files)
    && (c.phase.Finished? ==>
          && c.phase.dst in s.receipts
          && s.receipts[c.phase.dst].entry == c.entry
          && s.receipts[c.phase.dst].sum == c.phase.sum)
  }

  predicate CopiesOk(h: Bytes -> Hash, s: State) {
    && (forall j :: j in s.copies ==> CopyOk(h, s, s.copies[j]))
    && (forall i, j :: i in s.copies && j in s.copies && i != j ==> s.copies[i].seqNo != s.copies[j].seqNo)
    && (forall j :: j in s.copies && s.copies[j].phase.Locked? ==> s.lock == Some(j))
    && (s.lock.Some? ==> s.lock.value in s.copies && s.copies[s.lock.value].phase.Locked?)
  }

  /** Some live copy is writing `p`. */
  predicate InUse(s: State, p: Path) {
    exists j :: j in s.copies && s.copies[j].Live() && s.copies[j].Tmp() == p
  }

  /** No tmp file is without an owner, unless removing it failed or a crash left it. */
  predicate TmpsOk(s: State) {
    forall p :: p in s.files && IsTmp(p) ==> p in s.leaked || InUse(s, p)
  }

  /** A finalized file is complete, durable and carries the hash that was checked: it is as long
      as the whole source file, and equal to it if the medium was honest. */
  predicate Attested(h: Bytes -> Hash, f: File, r: Receipt) {
    && f.synced == |f.data| == |r.content| == r.entry.size
    && r.sum == h(r.content)
    && (r.faithful ==> f.data == r.content)
    && (r.paranoid ==> h(f.data) == r.sum)
    && (r.entry.knownHash.Some? ==> r.entry.knownHash.value == r.sum)
  }

  /** Every file without the tmp suffix was there first and is untouched, or is attested. */
  predicate FilesOk(h: Bytes -> Hash, s: State) {
    && (forall p :: p in s.files && !IsTmp(p) ==> p in s.original || p in s.receipts)
    && (forall p :: p in s.original ==>
          !IsTmp(p) && p !in s.receipts && p in s.files && s.files[p] == File(s.original[p], |s.original[p]|))
    && (forall p :: p in s.receipts ==>
          !IsTmp(p) && p in s.files && Attested(h, s.files[p], s.receipts[p]))
    && (forall p :: p in s.files ==> s.files[p].synced <= |s.files[p].data|)
  }

  /** Every index row names a finalized file with the recorded size, timestamp and hash. */
  predicate RowsOk(s: State) {
    forall i :: 0 <= i < |s.rows| ==> RowOk(s, s.rows[i])
  }

  predicate RowOk(s: State, r: Row) {
    && r.dst in s.receipts
    && var t := s.receipts[r.dst];
    && r.hash == t.sum && r.size == t.entry.size == |t.content| && r.mtime == t.entry.mtime && r.src == t.entry.src
  }

  predicate Inv(h: Bytes -> Hash, s: State) {
    CopiesOk(h, s) && FilesOk(h, s) && RowsOk(s)
  }

  /** A destination before the system ever ran: whatever is there, is durable. */
  predicate Initial(s: State) {
    && s.copies == map[] && s.rows == [] && s.receipts == map[] && s.lock.None? && s.orphans == map[] && s.crashes == 0
    && s.original == (map p | p in s.files && !IsTmp(p) :: s.files[p].data)
    && s.leaked == (map p | p in s.files && IsTmp(p) :: None)
    && forall p :: p in s.files ==> s.files[p].synced == |s.files[p].data|
  }

  // ---- every step keeps it ----------------------------------------------------------------

  /** Live copies never share a tmp file. */
  lemma TmpsDistinct(h: Bytes -> Hash, s: State, i: JobId, j: JobId)
    requires CopiesOk(h, s) && i in s.copies && j in s.copies && i != j
    ensures s.copies[i].Tmp() != s.copies[j].Tmp()
  {
    if s.copies[i].Tmp() == s.copies[j].Tmp() {
      TmpNameInjective(s.copies[i].entry.name, s.copies[i].seqNo, s.copies[j].entry.name, s.copies[j].seqNo);
    }
  }

  /** A step that leaves a copy and its tmp file alone leaves `CopyOk` of it alone. */
  lemma CopyFrame(h: Bytes -> Hash, s: State, t: State, c: Copy)
    requires CopyOk(h, s, c)
    requires t.tmpSeq >= s.tmpSeq
    requires c.Tmp() in s.files ==> c.Tmp() in t.files && t.files[c.Tmp()] == s.files[c.Tmp()]
    requires c.phase.Locked? ==> Path(c.dir, Candidate(c.entry.name, c.phase.k)) !in t.files
    requires c.phase.Finished? ==> c.phase.dst in t.receipts && t.receipts[c.phase.dst] == s.receipts[c.phase.dst]
    ensures CopyOk(h, t, c)
  {
  }

  /** A step that touches tmp files at most. */
  predicate Quiet(s: State, t: State) {
    && t.receipts == s.receipts && t.original == s.original && t.rows == s.rows
    && (forall p :: p in s.files && !IsTmp(p) ==> p in t.files && t.files[p] == s.files[p])
    && (forall p :: p in t.files && !IsTmp(p) ==> p in s.files)
    && (forall p :: p in t.files && IsTmp(p) ==> t.files[p].synced <= |t.files[p].data|)
  }

  lemma QuietKeeps(h: Bytes -> Hash, s: State, t: State)
    requires FilesOk(h, s) && RowsOk(s) && Quiet(s, t)
    ensures FilesOk(h, t) && RowsOk(t)
  {
    forall i | 0 <= i < |t.rows| ensures RowOk(t, t.rows[i]) {
      assert RowOk(s, s.rows[i]);
    }
  }

  lemma CrashQuiet(s: State, left: map<Path, File>)
    requires forall p :: p in s.files && !IsTmp(p) ==> s.files[p].synced == |s.files[p].data|
    requires left.Keys <= s.files.Keys && (forall p :: p in s.files && !IsTmp(p) ==> p in left)
    requires forall p :: p in left ==> Survives(s.files[p], left[p])
    ensures Quiet(s, DoCrash(s, left))
  {
  }

  lemma StepQuiet(h: Bytes -> Hash, s: State, a: Action)
    requires FilesOk(h, s) && Enabled(h, s, a) && !a.Rename? && !a.Record?
    ensures Quiet(s, Step(h, s, a))
  {
    if a.Crash? {
      forall p | p in s.files && !IsTmp(p) ensures s.files[p].synced == |s.files[p].data| {
        assert p in s.original || Attested(h, s.files[p], s.receipts[p]);
      }
      CrashQuiet(s, a.left);
    }
  }

  lemma BeginKeeps(h: Bytes -> Hash, s: State, a: Action)
    requires CopiesOk(h, s) && a.Begin? && Enabled(h, s, a)
    ensures CopiesOk(h, Step(h, s, a))
  {
    var t := Step(h, s, a);
    var c := t.copies[a.job];
    forall j | j in t.copies ensures CopyOk(h, t, t.copies[j]) {
      if j != a.job {
        var d := s.copies[j];
        if d.Tmp() == c.Tmp() {
          TmpNameInjective(d.entry.name, d.seqNo, c.entry.name, c.seqNo);
        }
        if d.phase.Locked? {
          CandidateTmp(d.entry.name, d.phase.k);
        }
        CopyFrame(h, s, t, d);
      }
    }
  }

  lemma TransferOwn(h: Bytes -> Hash, s: State, j: JobId, c: Copy, chunk: Bytes, stored: Bytes)
    requires CopyOk(h, s, c) && c.phase.Writing? && |stored| <= |chunk| && c.read + chunk <= c.content
    ensures var t := DoTransfer(s, j, c, chunk, stored); CopyOk(h, t, t.copies[j])
  {
  }

  lemma TransferKeeps(h: Bytes -> Hash, s: State, a: Action)
    requires CopiesOk(h, s) && a.Transfer? && Enabled(h, s, a)
    ensures CopiesOk(h, Step(h, s, a))
  {
    var t := Step(h, s, a);
    TransferOwn(h, s, a.job, s.copies[a.job], a.chunk, a.stored);
    forall j | j in t.copies && j != a.job ensures CopyOk(h, t, t.copies[j]) {
      TmpsDistinct(h, s, j, a.job);
      CopyFrame(h, s, t, s.copies[j]);
    }
  }

  lemma SealKeeps(h: Bytes -> Hash, s: State, a: Action)
    requires CopiesOk(h, s) && a.Seal? && Enabled(h, s, a)
    ensures CopiesOk(h, Step(h, s, a))
  {
    var t := Step(h, s, a);
    forall j | j in t.copies ensures CopyOk(h, t, t.copies[j]) {
      if j != a.job {
        TmpsDistinct(h, s, j, a.job);
        CopyFrame(h, s, t, s.copies[j]);
      }
    }
  }

  lemma PickedIsFree(s: State, dir: string, name: string, k: nat)
    requires FirstFree(NamesIn(s, dir), name, k)
    ensures Path(dir, Candidate(name, k)) !in s.files
  {
    assert Candidate(name, k) !in NamesIn(s, dir);
  }

  lemma PickOwn(h: Bytes -> Hash, s: State, j: JobId, c: Copy, k: nat)
    requires CopyOk(h, s, c) && c.phase.Verified? && FirstFree(NamesIn(s, c.dir), c.entry.name, k)
    ensures var t := DoPick(s, j, c, k); CopyOk(h, t, t.copies[j])
  {
    PickedIsFree(s, c.dir, c.entry.name, k);
  }

  lemma PickKeeps(h: Bytes -> Hash, s: State, a: Action)
    requires CopiesOk(h, s) && a.Pick? && Enabled(h, s, a)
    ensures CopiesOk(h, Step(h, s, a))
  {
    var t := Step(h, s, a);
    PickOwn(h, s, a.job, s.copies[a.job], a.k);
    forall j | j in t.copies && j != a.job ensures CopyOk(h, t, t.copies[j]) {
      CopyFrame(h, s, t, s.copies[j]);
    }
  }

  /** The file about to be renamed is complete, durable and checked. */
  lemma LockedAttests(h: Bytes -> Hash, s: State, j: JobId, c: Copy)
    requires CopyOk(h, s, c) && c.phase.Locked?
    ensures c.Tmp() in s.files
    ensures Attested(h, s.files[c.Tmp()], Receipt(j, c.entry, c.paranoid, c.content, c.faithful, c.phase.sum))
  {
  }

  lemma RenamedFilesOk(h: Bytes -> Hash, s: State, j: JobId, c: Copy)
    requires FilesOk(h, s) && c.phase.Locked? && c.Tmp() in s.files
    requires Attested(h, s.files[c.Tmp()], Receipt(j, c.entry, c.paranoid, c.content, c.faithful, c.phase.sum))
    requires var dst := Path(c.dir, Candidate(c.entry.name, c.phase.k)); dst !in s.files && !IsTmp(dst)
    ensures FilesOk(h, DoRename(s, j, c))
  {
  }

  /** The rename lands on a free name, although other jobs ran since the name was picked. */
  lemma RenameKeepsFiles(h: Bytes -> Hash, s: State, a: Action)
    requires Inv(h, s) && a.Rename? && Enabled(h, s, a)
    ensures var c := s.copies[a.job];
      var dst := Path(c.dir, Candidate(c.entry.name, c.phase.k));
      dst !in s.files && !IsTmp(dst) && dst !in s.receipts
    ensures FilesOk(h, Step(h, s, a)) && RowsOk(Step(h, s, a))
  {
    var c := s.copies[a.job];
    CandidateTmp(c.entry.name, c.phase.k);
    LockedAttests(h, s, a.job, c);
    RenamedFilesOk(h, s, a.job, c);
    var t := Step(h, s, a);
    forall i | 0 <= i < |t.rows| ensures RowOk(t, t.rows[i]) {
      assert RowOk(s, s.rows[i]);
    }
  }

  lemma RenameOwn(h: Bytes -> Hash, s: State, j: JobId, c: Copy)
    requires CopyOk(h, s, c) && c.phase.Locked?
    ensures var t := DoRename(s, j, c); CopyOk(h, t, t.copies[j])
  {
  }

  lemma RenameKeepsCopies(h: Bytes -> Hash, s: State, a: Action)
    requires Inv(h, s) && a.Rename? && Enabled(h, s, a)
    ensures CopiesOk(h, Step(h, s, a))
  {
    RenameOwn(h, s, a.job, s.copies[a.job]);
    var t := Step(h, s, a);
    forall j | j in t.copies && j != a.job ensures CopyOk(h, t, t.copies[j]) {
      RenameFrame(h, s, a, j);
    }
  }

  lemma RenameKeeps(h: Bytes -> Hash, s: State, a: Action)
    requires Inv(h, s) && a.Rename? && Enabled(h, s, a)
    ensures Inv(h, Step(h, s, a))
  {
    RenameKeepsFiles(h, s, a);
    RenameKeepsCopies(h, s, a);
  }

  lemma RenameFrame(h: Bytes -> Hash, s: State, a: Action, j: JobId)
    requires Inv(h, s) && a.Rename? && Enabled(h, s, a)
    requires j in s.copies && j != a.job
    ensures CopyOk(h, Step(h, s, a), s.copies[j])
  {
    RenameKeepsFiles(h, s, a);
    TmpsDistinct(h, s, j, a.job);
    var c := s.copies[j];
    assert !c.phase.Locked?;
    CopyFrame(h, s, Step(h, s, a), c);
  }

  lemma AbortKeeps(h: Bytes -> Hash, s: State, a: Action)
    requires CopiesOk(h, s) && a.Abort? && Enabled(h, s, a)
    ensures CopiesOk(h, Step(h, s, a))
  {
    var t := Step(h, s, a);
    forall j | j in t.copies ensures CopyOk(h, t, t.copies[j]) {
      TmpsDistinct(h, s, j, a.job);
      CopyFrame(h, s, t, s.copies[j]);
    }
  }

  lemma VerifyKeeps(h: Bytes -> Hash, s: State, a: Action)
    requires CopiesOk(h, s) && a.Verify? && Enabled(h, s, a)
    ensures CopiesOk(h, Step(h, s, a))
  {
    var t := Step(h, s, a);
    forall j | j in t.copies && j != a.job ensures CopyOk(h, t, t.copies[j]) {
      CopyFrame(h, s, t, s.copies[j]);
    }
  }

  lemma RecordKeepsCopies(h: Bytes -> Hash, s: State, a: Action)
    requires CopiesOk(h, s) && a.Record? && Enabled(h, s, a)
    ensures CopiesOk(h, Step(h, s, a))
  {
    var t := Step(h, s, a);
    forall j | j in t.copies ensures CopyOk(h, t, t.copies[j]) {
      CopyFrame(h, s, t, s.copies[j]);
    }
  }

  lemma RecordKeeps(h: Bytes -> Hash, s: State, a: Action)
    requires Inv(h, s) && a.Record? && Enabled(h, s, a)
    ensures Inv(h, Step(h, s, a))
  {
    RecordKeepsCopies(h, s, a);
    var t := Step(h, s, a);
    assert CopyOk(h, s, s.copies[a.job]);
    forall i | 0 <= i < |t.rows| ensures RowOk(t, t.rows[i]) {
      if i < |s.rows| {
        assert RowOk(s, s.rows[i]);
      }
    }
  }

  lemma StepKeepsCopies(h: Bytes -> Hash, s: State, a: Action)
    requires CopiesOk(h, s) && Enabled(h, s, a) && !a.Rename?
    ensures CopiesOk(h, Step(h, s, a))
  {
    match a
    case Begin(_, _, _, _, _) => BeginKeeps(h, s, a);
    case Transfer(_, _, _) => TransferKeeps(h, s, a);
    case Seal(_) => SealKeeps(h, s, a);
    case Verify(_) => VerifyKeeps(h, s, a);
    case Pick(_, _) => PickKeeps(h, s, a);
    case Abort(_, _) => AbortKeeps(h, s, a);
    case Record(_, _) => RecordKeepsCopies(h, s, a);
    case _ =>
  }

  lemma StepKeeps(h: Bytes -> Hash, s: State, a: Action)
    requires Inv(h, s) && Enabled(h, s, a)
    ensures Inv(h, Step(h, s, a))
  {
    if a.Rename? {
      RenameKeeps(h, s, a);
    } else if a.Record? {
      RecordKeeps(h, s, a);
    } else {
      StepKeepsCopies(h, s, a);
      StepQuiet(h, s, a);
      QuietKeeps(h, s, Step(h, s, a));
    }
  }

  lemma {:induction false} RunKeeps(h: Bytes -> Hash, s: State, log: seq<Action>)
    requires Inv(h, s) && Legal(h, s, log)
    ensures Inv(h, Run(h, s, log))
  {
    if log != [] {
      var before := log[..|log| - 1];
      RunKeeps(h, s, before);
      StepKeeps(h, Run(h, s, before), log[|log| - 1]);
    }
  }

  // ---- stray tmp files --------------------------------------------------------------------

  /** `TmpsOk` when only job `j` acted: the other owners are still owners. */
  lemma TmpsFrame(s: State, t: State, j: JobId)
    requires TmpsOk(s)
    requires forall i :: i in s.copies && i != j ==> i in t.copies && t.copies[i] == s.copies[i]
    requires forall p :: p in t.files && IsTmp(p) ==> p in s.files || InUse(t, p)
    requires forall p :: p in s.leaked ==> p in t.leaked || p !in t.files || InUse(t, p)
    requires j in s.copies && s.copies[j].Live() ==>
               var p := s.copies[j].Tmp(); p in t.leaked || p !in t.files || InUse(t, p)
    ensures TmpsOk(t)
  {
    forall p | p in t.files && IsTmp(p) ensures p in t.leaked || InUse(t, p) {
      if p in s.files && p !in s.leaked {
        var i :| i in s.copies && s.copies[i].Live() && s.copies[i].Tmp() == p;
        if i != j {
          assert i in t.copies && t.copies[i].Live() && t.copies[i].Tmp() == p;
        }
      }
    }
  }

  lemma StepKeepsTmps(h: Bytes -> Hash, s: State, a: Action)
    requires Inv(h, s) && TmpsOk(s) && Enabled(h, s, a)
    ensures TmpsOk(Step(h, s, a))
  {
    if a.Rename? {
      RenameKeepsFiles(h, s, a);
    }
    JobStepKeepsTmps(h, s, a);
  }

  lemma JobStepKeepsTmps(h: Bytes -> Hash, s: State, a: Action)
    requires TmpsOk(s) && Enabled(h, s, a)
    requires a.Rename? ==> !IsTmp(Step(h, s, a).copies[a.job].phase.dst)
    ensures TmpsOk(Step(h, s, a))
  {
    if !a.Crash? && !a.Sweep? {
      var j, t := a.job, Step(h, s, a);
      if j in t.copies && t.copies[j].Live() {
        assert InUse(t, t.copies[j].Tmp());
      }
      TmpsFrame(s, t, j);
    }
  }

  /** In every run, each tmp file on the destination is being written by a live copy, unless
      an attempt to remove it failed, a crash left it, or it was there before the run. */
  lemma {:induction false} NoStrayTmp(h: Bytes -> Hash, init: State, log: seq<Action>)
    requires Inv(h, init) && TmpsOk(init) && Legal(h, init, log)
    ensures TmpsOk(Run(h, init, log))
  {
    if log != [] {
      var before := log[..|log| - 1];
      NoStrayTmp(h, init, before);
      RunKeeps(h, init, before);
      StepKeepsTmps(h, Run(h, init, before), log[|log| - 1]);
    }
  }

  // ---- main theorems ----------------------------------------------------------------------

  /** In every interleaving, with crashes anywhere, a file without the tmp suffix is one that
      was there first, byte for byte, or a durable copy of a whole source file whose hash was
      checked: as long as the source, equal to it if the medium was honest, and hashing to the
      checked value in paranoid mode even if it was not. And every index row names such a file,
      with its length, its timestamp and the hash of the whole source. */
  lemma CrashSafe(h: Bytes -> Hash, init: State, log: seq<Action>, p: Path)
    requires Initial(init) && Legal(h, init, log)
    requires !IsTmp(p)
    ensures var s := Run(h, init, log);
      && (p in s.files ==> s.files[p].synced == |s.files[p].data|)
      && (p in init.files ==> p in s.files && s.files[p] == init.files[p])
      && (p in s.files && p !in init.files ==>
            && p in s.receipts
            && var f, r := s.files[p], s.receipts[p];
            && |f.data| == |r.content| == r.entry.size && r.sum == h(r.content)
            && (r.faithful ==> f.data == r.content) && (r.paranoid ==> h(f.data) == r.sum)
            && (r.entry.knownHash.Some? ==> r.entry.knownHash.value == r.sum))
      && (forall i :: 0 <= i < |s.rows| ==>
            && s.rows[i].dst in s.files && s.rows[i].dst in s.receipts && !IsTmp(s.rows[i].dst)
            && var r := s.receipts[s.rows[i].dst];
               s.rows[i].hash == h(r.content) && s.rows[i].size == |s.files[s.rows[i].dst].data|
               && s.rows[i].mtime == r.entry.mtime)
  {
    RunKeeps(h, init, log);
    OriginalFixed(h, init, log);
    assert Inv(h, init);
  }

  lemma StepOriginal(h: Bytes -> Hash, s: State, a: Action)
    requires Enabled(h, s, a)
    ensures Step(h, s, a).original == s.original
  {
  }

  lemma {:induction false} OriginalFixed(h: Bytes -> Hash, s: State, log: seq<Action>)
    requires Legal(h, s, log)
    ensures Run(h, s, log).original == s.original
  {
    if log != [] {
      OriginalFixed(h, s, log[..|log| - 1]);
      StepOriginal(h, Run(h, s, log[..|log| - 1]), log[|log| - 1]);
    }
  }

  /** Finalized files are for ever: no later step of anybody, crash or sweep included,
      changes or removes one, and index rows are only ever added. */
  lemma {:induction false} FinalsForever(h: Bytes -> Hash, s: State, log: seq<Action>)
    requires Inv(h, s) && Legal(h, s, log)
    ensures var t := Run(h, s, log);
      && (forall p :: p in s.files && !IsTmp(p) ==> p in t.files && t.files[p] == s.files[p])
      && (forall p :: p in s.receipts ==> p in t.receipts && t.receipts[p] == s.receipts[p])
      && s.rows <= t.rows
  {
    if log != [] {
      var before := log[..|log| - 1];
      FinalsForever(h, s, before);
      RunKeeps(h, s, before);
      StepKeepsFinals(h, Run(h, s, before), log[|log| - 1]);
    }
  }

  lemma RenameKeepsFinals(h: Bytes -> Hash, s: State, a: Action)
    requires Inv(h, s) && Enabled(h, s, a) && a.Rename?
    ensures var t := Step(h, s, a);
      && (forall p :: p in s.files && !IsTmp(p) ==> p in t.files && t.files[p] == s.files[p])
      && (forall p :: p in s.receipts ==> p in t.receipts && t.receipts[p] == s.receipts[p])
      && s.rows <= t.rows
  {
    RenameKeepsFiles(h, s, a);
  }

  lemma StepKeepsFinals(h: Bytes -> Hash, s: State, a: Action)
    requires Inv(h, s) && Enabled(h, s, a)
    ensures var t := Step(h, s, a);
      && (forall p :: p in s.files && !IsTmp(p) ==> p in t.files && t.files[p] == s.files[p])
      && (forall p :: p in s.receipts ==> p in t.receipts && t.receipts[p] == s.receipts[p])
      && s.rows <= t.rows
  {
    if a.Rename? {
      RenameKeepsFinals(h, s, a);
    } else if !a.Record? {
      StepQuiet(h, s, a);
    }
  }

  /** After a crash and a boot sweep in which every removal works, the destination holds
      exactly the finalized files it held before the crash: no tmp file, nothing lost. */
  lemma SweepRestores(h: Bytes -> Hash, s: State, left: map<Path, File>)
    requires Inv(h, s) && Enabled(h, s, Crash(left))
    ensures Enabled(h, Step(h, s, Crash(left)), Sweep({}))
    ensures Step(h, Step(h, s, Crash(left)), Sweep({})).files == map p | p in s.files && !IsTmp(p) :: s.files[p]
  {
    SurvivorsEqual(h, s, left);
  }

  lemma SurvivorsEqual(h: Bytes -> Hash, s: State, left: map<Path, File>)
    requires Inv(h, s) && Enabled(h, s, Crash(left))
    ensures (map p | p in left && !IsTmp(p) :: left[p]) == map p | p in s.files && !IsTmp(p) :: s.files[p]
  {
    forall p | p in s.files && !IsTmp(p) ensures p in left && left[p] == s.files[p] {
      assert Survives(s.files[p], left[p]);
    }
  }
}
