/** Copying single files: streamed hashing, verification, atomic finalization, retries.
    Every method here runs while other jobs work on the same destination. */
module Copier {
  import opened Text
  import opened Jobs
  import opened Names
  import opened CopyProtocol
  import opened DestVolume
  import opened Streaming
  import opened JobEvents
  import opened Progress

  const RETRIES := 3   // len(retryDelays)

  datatype Failure = IoError | DiskFull | ShortWrite | HashMismatch | ParanoidMismatch | CtxDone

  datatype Outcome = Copied(dst: Path, sum: Hash) | NotCopied(why: Failure)

  /** Some call into the operating system, which may fail. */
  method Attempt(smooth: bool) returns (f: Option<Failure>)
    ensures f.None? || f.value.IoError? || f.value.DiskFull?
    ensures smooth ==> f.None?
  {
    var fails: bool, full: bool := *, *;
    f := if !fails || smooth then None else if full then Some(DiskFull) else Some(IoError);
  }

  /** No call fails, and nobody has cancelled the job. */
  ghost predicate Smooth(ctx: Context, d: Destination)
    reads ctx, d
  {
    d.smooth && ctx.cause.None?
  }

  /** The content is what it was when the copy was planned, as far as it was read then. */
  predicate AsPlanned(h: Bytes -> Hash, e: FileEntry, content: Bytes) {
    e.knownHash.Some? ==> e.knownHash.value == h(content)
  }

  /** No reason for the copy not to be made. */
  ghost predicate Fine(ctx: Context, d: Destination, e: FileEntry, content: Bytes, paranoid: bool)
    reads ctx, d
  {
    Smooth(ctx, d) && AsPlanned(d.h, e, content) && (d.honest || !paranoid)
  }

  /** What a failure of a copy says: a mismatch is one. */
  predicate Explains(h: Bytes -> Hash, honest: bool, why: Failure, e: FileEntry, paranoid: bool, content: Bytes,
                     cause: Option<Cause>) {
    && (why.HashMismatch? ==> e.knownHash.Some? && e.knownHash.value != h(content))
    && (why.ParanoidMismatch? ==> paranoid && !honest)
    && (why.CtxDone? ==> cause.Some?)
  }

  /** What reporting progress leaves alone. */
  twostate predicate OnlyReports(m: Meter)
    reads m
  {
    && m.filesCopied == old(m.filesCopied) && m.filesFailed == old(m.filesFailed)
    && m.filesSkipped == old(m.filesSkipped) && m.filesTotal == old(m.filesTotal)
    && m.bytesCopied == old(m.bytesCopied) && m.bytesTotal == old(m.bytesTotal)
    && ProgressAdded(old(m.trace), m.trace)
  }

  /** Job `j` is in the middle of writing the tmp file of `c`. */
  predicate InProgress(d: State, j: JobId, c: Copy) {
    j in d.copies && d.copies[j].(read := c.read, faithful := c.faithful, phase := c.phase) == c
  }

  /** What is written of `c`'s file so far is the beginning of `all`, as far as it counts. */
  predicate Partial(d: State, j: JobId, c: Copy, all: Bytes, honest: bool) {
    && InProgress(d, j, c) && (d.copies[j].phase.Writing? || d.copies[j].phase.Broken?)
    && d.copies[j].read <= all && (honest ==> d.copies[j].faithful)
  }

  /** Writes one chunk and reports the bytes written so far. */
  method StoreChunk(d: Destination, j: JobId, m: Meter, chunk: Bytes, written: nat)
    returns (n: nat, err: Option<Failure>)
    requires d.Valid() && j in d.st.copies && d.st.copies[j].phase.Writing?
    requires d.st.copies[j].read + chunk <= d.st.copies[j].content
    requires m.Valid() && m.bytesCopied + written + |chunk| <= m.bytesTotal
    modifies d, m
    ensures d.Valid() && old(d.log) <= d.log && Steady(old(d.st), d.st, j) && j in d.st.copies && n <= |chunk|
    ensures var c, c0 := d.st.copies[j], old(d.st.copies[j]);
      && c == c0.(read := c0.read + chunk, faithful := c.faithful,
                  phase := if n == |chunk| then Writing else Broken)
      && (d.honest && c0.faithful ==> c.faithful)
    ensures m.Valid() && OnlyReports(m) && m.inflight == written + n
    ensures d.smooth ==> n == |chunk| && err.None?
    ensures err.Some? ==> err.value.IoError? || err.value.DiskFull?
  {
    n := d.Write(j, chunk);
    err := Attempt(d.smooth);
    m.Report(written + n);
  }

  datatype Pumped = GoOn | AtEof | Fails(why: Failure)

  /** One read and one write of the read/write loop. `whole` are all the reads there will be. */
  method Pump(d: Destination, j: JobId, r: Reader, m: Meter, written: nat, ghost c0: Copy, ghost whole: seq<Chunk>)
    returns (res: Pumped, total: nat)
    requires d.Valid() && Partial(d.st, j, c0, Delivered(whole), d.honest) && Delivered(whole) <= c0.content
    requires d.st.copies[j].phase.Writing? && |d.st.copies[j].read| == written
    requires Streamed(d.st.copies[j].read, r.script, whole)
    requires m.Valid() && m.bytesCopied + |Delivered(whole)| <= m.bytesTotal && m.inflight <= |Delivered(whole)|
    modifies d, r, m
    ensures d.Valid() && old(d.log) <= d.log && Steady(old(d.st), d.st, j)
    ensures Partial(d.st, j, c0, Delivered(whole), d.honest)
    ensures !res.Fails? ==> d.st.copies[j].phase.Writing?
    ensures res.GoOn? ==> |d.st.copies[j].read| == total && Streamed(d.st.copies[j].read, r.script, whole)
    ensures res.GoOn? ==> |r.script| < |old(r.script)|
    ensures res.AtEof? ==> Complete(whole) && d.st.copies[j].read == Delivered(whole)
    ensures d.smooth && Complete(whole) ==> !res.Fails?
    ensures res.Fails? ==> res.why.IoError? || res.why.DiskFull? || res.why.ShortWrite?
    ensures m.Valid() && OnlyReports(m) && m.inflight <= |Delivered(whole)|
  {
    total := written;
    if r.script != [] {
      StreamStep(d.st.copies[j].read, r.script, whole);
    }
    var c := r.Read();
    assert c.data == [] ==> d.st.copies[j].read + c.data == d.st.copies[j].read;
    if |c.data| > 0 {
      var n, werr := StoreChunk(d, j, m, c.data, written);
      total := written + n;
      if werr.Some? {
        return Fails(werr.value), total;
      }
      if n < |c.data| {
        return Fails(ShortWrite), total;
      }
    }
    res := if c.end.Eof? then AtEof else if c.end.Fail? then Fails(IoError) else GoOn;
  }

  /** The read/write loop. Success means the source was read to its end and every byte of it
      went into the tmp file and the hash, whatever the chunking; after any other return both
      hold a prefix of it. */
  method CopyBuffer(ctx: Context, d: Destination, j: JobId, r: Reader, m: Meter)
    returns (err: Option<Failure>)
    requires d.Valid() && j in d.st.copies && d.st.copies[j].phase.Writing?
    requires d.st.copies[j].read == [] && d.st.copies[j].faithful && Delivered(r.script) <= d.st.copies[j].content
    requires m.Valid() && m.bytesCopied + |Delivered(r.script)| <= m.bytesTotal && m.inflight == 0
    modifies ctx, d, r, m
    ensures d.Valid() && old(d.log) <= d.log && Steady(old(d.st), d.st, j)
    ensures Partial(d.st, j, old(d.st.copies[j]), Delivered(old(r.script)), d.honest)
    ensures err.None? ==>
      && d.st.copies[j].phase.Writing? && Complete(old(r.script)) && d.st.copies[j].read == Delivered(old(r.script))
    ensures Smooth(ctx, d) && Complete(old(r.script)) ==> err.None?
    ensures err.Some? ==> !err.value.HashMismatch? && !err.value.ParanoidMismatch?
    ensures err == Some(CtxDone) ==> ctx.cause.Some?
    ensures old(ctx.cause).Some? ==> ctx.cause == old(ctx.cause)
    ensures m.Valid() && OnlyReports(m) && m.inflight <= |Delivered(old(r.script))|
  {
    var written := 0;
    ghost var whole, c0, s0 := r.script, d.st.copies[j], d.st;
    while true
      invariant d.Valid() && old(d.log) <= d.log && Steady(s0, d.st, j)
      invariant Partial(d.st, j, c0, Delivered(whole), d.honest)
      invariant d.st.copies[j].phase.Writing? && |d.st.copies[j].read| == written
      invariant Streamed(d.st.copies[j].read, r.script, whole)
      invariant old(ctx.cause).Some? ==> ctx.cause == old(ctx.cause)
      invariant m.Valid() && OnlyReports(m) && m.inflight <= |Delivered(whole)|
      decreases |r.script|
    {
      var stop := ctx.Cancelled();
      if stop {
        return Some(CtxDone);
      }
      ghost var s, tr := d.st, m.trace;
      var res;
      res, written := Pump(d, j, r, m, written, c0, whole);
      SteadyTrans(s0, s, d.st, j);
      ProgressAddedTrans(old(m.trace), tr, m.trace);
      if !res.GoOn? {
        return if res.AtEof? then None else Some(res.why);
      }
    }
  }

  /** So far job `j` has finalized nothing since `s`, and has leaked nothing if removals work. */
  predicate Pending(removes: bool, s: State, t: State, j: JobId) {
    && Extends(s, t) && Own(t, j) == Own(s, j) && RowsOf(t.rows, j) == RowsOf(s.rows, j)
    && (removes ==> Leaks(t, j) <= Leaks(s, j))
  }

  /** Job `j` has nothing to show for the file: no copy running, no file finalized, no row
      written and, if removals work, no tmp file left. */
  predicate NothingDone(removes: bool, s: State, t: State, j: JobId) {
    j !in t.copies && Pending(removes, s, t, j)
  }

  /** `dst` is the first of the names tried for `name` in `dir` that was free: those before it are taken. */
  ghost predicate FirstName(s: State, dst: Path, dir: string, name: string) {
    exists k: nat :: Taken(s, dir, name, k) && dst == Path(dir, Candidate(name, k))
  }

  /** Exactly one file more: `dst`, complete and hashed, under a name that was free. */
  ghost predicate OneFinalized(honest: bool, removes: bool, s: State, t: State, j: JobId, e: FileEntry,
                         dir: string, paranoid: bool, content: Bytes, dst: Path, sum: Hash) {
    && Extends(s, t) && RowsOf(t.rows, j) == RowsOf(s.rows, j)
    && (removes ==> Leaks(t, j) <= Leaks(s, j))
    && FirstName(t, dst, dir, e.name) && !IsTmp(dst) && dst !in s.files && dst !in s.receipts
    && (e.knownHash.Some? ==> e.knownHash.value == sum)
    && j in t.copies && t.copies[j].entry == e && t.copies[j].phase == Finished(sum, dst)
    && dst in t.receipts && Own(t, j) == Own(s, j)[dst := t.receipts[dst]]
    && var r := t.receipts[dst];
       r == Receipt(j, e, paranoid, content, r.faithful, sum) && (honest ==> r.faithful)
  }

  lemma SteadyAfterPending(removes: bool, s: State, t: State, u: State, j: JobId)
    requires Pending(removes, s, t, j) && Steady(t, u, j)
    ensures Pending(removes, s, u, j)
  {
  }

  /** Hash checks and, in paranoid mode, the second read of what the medium stored. */
  method CheckHashes(ctx: Context, d: Destination, j: JobId) returns (err: Option<Failure>)
    requires d.Valid() && j in d.st.copies && d.st.copies[j].phase.Synced?
    modifies ctx, d
    ensures d.Valid() && old(d.log) <= d.log && Steady(old(d.st), d.st, j) && j in d.st.copies
    ensures var c0 := old(d.st.copies[j]);
      && (err.None? ==> d.st.copies[j] == c0.(phase := Verified(c0.phase.sum)))
      && (err.Some? ==> d.st.copies[j] == c0)
      && (err.None? && c0.entry.knownHash.Some? ==> c0.entry.knownHash.value == c0.phase.sum)
      && (err == Some(HashMismatch) <==> c0.entry.knownHash.Some? && c0.entry.knownHash.value != c0.phase.sum)
      && (err == Some(ParanoidMismatch) ==> c0.paranoid && d.h(old(d.Stored(j))) != c0.phase.sum)
      && (err.Some? && !c0.paranoid ==> err == Some(HashMismatch))
      && (err.Some? ==> err.value.HashMismatch? || err.value.ParanoidMismatch? || err.value.IoError?)
    ensures Smooth(ctx, d) ==> err != Some(IoError)
    ensures old(ctx.cause).Some? ==> ctx.cause == old(ctx.cause)
  {
    var c := d.st.copies[j];
    if c.entry.knownHash.Some? && c.entry.knownHash.value != c.phase.sum {
      return Some(HashMismatch);
    }
    if c.paranoid {
      var reread := HashFile(d.h, ctx, d.Stored(j), d.smooth);
      if reread.None? {
        return Some(IoError);
      }
      if reread.value != c.phase.sum {
        return Some(ParanoidMismatch);
      }
    }
    d.MarkVerified(j);
    err := None;
  }

  /** From opened source to synced tmp file. */
  method FillTmp(ctx: Context, d: Destination, j: JobId, e: FileEntry, content: Bytes, dir: string,
                 paranoid: bool, m: Meter) returns (err: Option<Failure>)
    requires d.Valid() && j !in d.st.copies && !IsTmpName(e.name) && e.size == |content|
    requires m.Valid() && m.bytesCopied + |content| <= m.bytesTotal && m.inflight == 0
    modifies ctx, d, m
    ensures d.Valid() && old(d.log) <= d.log && Steady(old(d.st), d.st, j) && j in d.st.copies
    ensures d.st.copies[j].Live() && d.st.copies[j].entry == e
    ensures err.None? ==> var c := d.st.copies[j];
      && c == Copy(e, dir, paranoid, content, c.seqNo, content, c.faithful, Synced(d.h(content)))
      && (d.honest ==> c.faithful && d.Stored(j) == content)
    ensures Smooth(ctx, d) ==> err.None?
    ensures err.Some? ==> !err.value.HashMismatch? && !err.value.ParanoidMismatch?
    ensures err == Some(CtxDone) ==> ctx.cause.Some?
    ensures old(ctx.cause).Some? ==> ctx.cause == old(ctx.cause)
    ensures m.Valid() && OnlyReports(m) && m.inflight <= |content|
  {
    ghost var s0 := d.st;
    var r := new Reader(content, d.smooth);
    d.CreateTmp(j, e, dir, paranoid, content);
    ghost var s1 := d.st;
    err := CopyBuffer(ctx, d, j, r, m);
    ghost var s2 := d.st;
    SteadyTrans(s0, s1, s2, j);
    if err.None? {
      err := SealTmp(d, j);
      SteadyTrans(s0, s2, d.st, j);
    }
  }

  /** Sync and close. */
  method SealTmp(d: Destination, j: JobId) returns (err: Option<Failure>)
    requires d.Valid() && j in d.st.copies && d.st.copies[j].phase.Writing?
    requires d.st.copies[j].read == d.st.copies[j].content
    modifies d
    ensures d.Valid() && old(d.log) <= d.log && Steady(old(d.st), d.st, j) && j in d.st.copies
    ensures var c, c0 := d.st.copies[j], old(d.st.copies[j]);
      && c.Live() && c.entry == c0.entry
      && (err.None? ==> c == c0.(phase := Synced(d.h(c0.content))) && (c.faithful ==> d.Stored(j) == c.content))
    ensures d.smooth ==> err.None?
    ensures err.Some? ==> err.value.IoError? || err.value.DiskFull?
  {
    err := Attempt(d.smooth);
    if err.None? {
      d.SyncTmp(j);
      if d.st.copies[j].faithful {
        FaithfulIsStored(d, j);
      }
      err := Attempt(d.smooth);   // close
    }
  }

  lemma FaithfulIsStored(d: Destination, j: JobId)
    requires d.Valid() && j in d.st.copies && d.st.copies[j].phase.Synced? && d.st.copies[j].faithful
    ensures d.Stored(j) == d.st.copies[j].content
  {
    d.Invariant();
    assert CopyOk(d.h, d.st, d.st.copies[j]);
  }

  /** Drops a copy that failed after `s0`. */
  method GiveUp(d: Destination, j: JobId, ghost s0: State)
    requires d.Valid() && j in d.st.copies && d.st.copies[j].Live() && Pending(d.removes, s0, d.st, j)
    modifies d
    ensures d.Valid() && old(d.log) <= d.log && NothingDone(d.removes, s0, d.st, j)
  {
    d.Cleanup(j);
  }

  /** Name selection and rename, under the rename lock. */
  method Finalize(d: Destination, j: JobId, ghost s0: State) returns (r: Outcome)
    requires d.Valid() && j in d.st.copies && d.st.copies[j].phase.Verified? && Pending(d.removes, s0, d.st, j)
    requires var c := d.st.copies[j];
      && (d.honest ==> c.faithful)
      && (c.entry.knownHash.Some? ==> c.entry.knownHash.value == c.phase.sum)
    modifies d
    ensures d.Valid() && old(d.log) <= d.log
    ensures r.NotCopied? ==> NothingDone(d.removes, s0, d.st, j)
    ensures var c := old(d.st.copies[j]);
      r.Copied? ==>
        r.sum == c.phase.sum &&
        OneFinalized(d.honest, d.removes, s0, d.st, j, c.entry, c.dir, c.paranoid, c.content, r.dst, r.sum)
    ensures r.NotCopied? ==> !d.smooth && (r.why.IoError? || r.why.DiskFull?)
  {
    ghost var s1 := d.st;
    d.PickName(j);
    SteadyAfterPending(d.removes, s0, s1, d.st, j);
    var err := Attempt(d.smooth);
    if err.Some? {
      GiveUp(d, j, s0);
      return NotCopied(err.value);
    }
    var sum := d.st.copies[j].phase.sum;
    ghost var s2 := d.st;
    d.Invariant();
    assert CopyOk(d.h, d.st, d.st.copies[j]);
    var dst := d.RenameTmp(j);
    TakenStays(s2, d.st, dst.dir, s2.copies[j].entry.name, s2.copies[j].phase.k);
    RenamedOne(d.honest, d.removes, s0, s2, d.st, j, dst);
    r := Copied(dst, sum);
  }

  lemma RenamedOne(honest: bool, removes: bool, s: State, t: State, u: State, j: JobId, dst: Path)
    requires Pending(removes, s, t, j) && Extends(t, u) && RowsOf(u.rows, j) == RowsOf(t.rows, j)
    requires Leaks(u, j) <= Leaks(t, j)
    requires j in t.copies && t.copies[j].phase.Locked? && j in u.copies
    requires var c := t.copies[j];
      && u.copies[j] == c.(phase := Finished(c.phase.sum, dst))
      && Own(u, j) == Own(t, j)[dst := Receipt(j, c.entry, c.paranoid, c.content, c.faithful, c.phase.sum)]
      && FirstName(u, dst, c.dir, c.entry.name) && !IsTmp(dst) && dst !in t.files && dst !in t.receipts
      && (honest ==> c.faithful)
      && (c.entry.knownHash.Some? ==> c.entry.knownHash.value == c.phase.sum)
    ensures var c := t.copies[j];
      OneFinalized(honest, removes, s, u, j, c.entry, c.dir, c.paranoid, c.content, dst, c.phase.sum)
  {
    assert dst in Own(u, j);
    assert u.receipts[dst] == Own(u, j)[dst];
  }

  /** One attempt at one file. */
  method CopyOnce(ctx: Context, d: Destination, j: JobId, e: FileEntry, content: Bytes, dir: string,
                  paranoid: bool, m: Meter, ghost s0: State) returns (r: Outcome)
    requires d.Valid() && NothingDone(d.removes, s0, d.st, j) && !IsTmpName(e.name) && e.size == |content|
    requires m.Valid() && m.bytesCopied + |content| <= m.bytesTotal && m.inflight == 0
    modifies ctx, d, m
    ensures d.Valid() && old(d.log) <= d.log
    ensures r.NotCopied? ==> NothingDone(d.removes, s0, d.st, j)
    ensures r.Copied? ==> OneFinalized(d.honest, d.removes, s0, d.st, j, e, dir, paranoid, content, r.dst, r.sum)
                            && r.sum == d.h(content)
    ensures r.NotCopied? ==> Explains(d.h, d.honest, r.why, e, paranoid, content, ctx.cause)
    ensures Fine(ctx, d, e, content, paranoid) ==> r.Copied?
    ensures old(ctx.cause).Some? ==> ctx.cause == old(ctx.cause)
    ensures m.Valid() && OnlyReports(m) && m.inflight <= |content|
  {
    var err := Attempt(d.smooth);   // create the directory, open the source, open the tmp file
    if err.None? {
      err := FillAndCheck(ctx, d, j, e, content, dir, paranoid, m);
      SteadyAfterPending(d.removes, s0, old(d.st), d.st, j);
      if err.Some? {
        GiveUp(d, j, s0);
      }
    }
    if err.Some? {
      return NotCopied(err.value);
    }
    r := Finalize(d, j, s0);
  }

  /** A tmp file that holds all of the entry and has passed the checks. */
  method FillAndCheck(ctx: Context, d: Destination, j: JobId, e: FileEntry, content: Bytes, dir: string,
                      paranoid: bool, m: Meter) returns (err: Option<Failure>)
    requires d.Valid() && j !in d.st.copies && !IsTmpName(e.name) && e.size == |content|
    requires m.Valid() && m.bytesCopied + |content| <= m.bytesTotal && m.inflight == 0
    modifies ctx, d, m
    ensures d.Valid() && old(d.log) <= d.log && Steady(old(d.st), d.st, j) && j in d.st.copies
    ensures d.st.copies[j].Live()
    ensures err.None? ==> var c := d.st.copies[j];
      && c == Copy(e, dir, paranoid, content, c.seqNo, content, c.faithful, Verified(d.h(content)))
      && (d.honest ==> c.faithful) && AsPlanned(d.h, e, content)
    ensures err.Some? ==> Explains(d.h, d.honest, err.value, e, paranoid, content, ctx.cause)
    ensures Fine(ctx, d, e, content, paranoid) ==> err.None?
    ensures old(ctx.cause).Some? ==> ctx.cause == old(ctx.cause)
    ensures m.Valid() && OnlyReports(m) && m.inflight <= |content|
  {
    err := FillTmp(ctx, d, j, e, content, dir, paranoid, m);
    ghost var s1 := d.st;
    if err.None? {
      err := CheckHashes(ctx, d, j);
      SteadyTrans(old(d.st), s1, d.st, j);
    }
  }

  /** An attempt, the bytes in flight set back to none before it. */
  method Retry(ctx: Context, d: Destination, j: JobId, e: FileEntry, content: Bytes, dir: string,
               paranoid: bool, m: Meter, ghost s0: State) returns (r: Outcome)
    requires d.Valid() && NothingDone(d.removes, s0, d.st, j) && !IsTmpName(e.name) && e.size == |content|
    requires m.Valid() && m.bytesCopied + |content| <= m.bytesTotal
    modifies ctx, d, m
    ensures d.Valid() && old(d.log) <= d.log
    ensures r.NotCopied? ==> NothingDone(d.removes, s0, d.st, j)
    ensures r.Copied? ==> OneFinalized(d.honest, d.removes, s0, d.st, j, e, dir, paranoid, content, r.dst, r.sum)
                            && r.sum == d.h(content)
    ensures r.NotCopied? ==> Explains(d.h, d.honest, r.why, e, paranoid, content, ctx.cause)
    ensures Fine(ctx, d, e, content, paranoid) ==> r.Copied?
    ensures old(ctx.cause).Some? ==> ctx.cause == old(ctx.cause)
    ensures m.Valid() && OnlyReports(m) && m.inflight <= |content|
  {
    m.Report(0);
    ghost var tr := m.trace;
    r := CopyOnce(ctx, d, j, e, content, dir, paranoid, m, s0);
    ProgressAddedTrans(old(m.trace), tr, m.trace);
  }

  /** Copies one file, retrying failed attempts unless the job is cancelled or the disk is full. */
  method CopyOne(ctx: Context, d: Destination, j: JobId, e: FileEntry, content: Bytes, dir: string,
                 paranoid: bool, m: Meter) returns (r: Outcome, attempts: nat)
    requires d.Valid() && j !in d.st.copies && !IsTmpName(e.name) && e.size == |content|
    requires m.Valid() && m.bytesCopied + |content| <= m.bytesTotal
    modifies ctx, d, m
    ensures d.Valid() && old(d.log) <= d.log
    ensures r.NotCopied? ==> NothingDone(d.removes, old(d.st), d.st, j)
    ensures r.Copied? ==> OneFinalized(d.honest, d.removes, old(d.st), d.st, j, e, dir, paranoid, content, r.dst, r.sum)
                            && r.sum == d.h(content)
    ensures 1 <= attempts <= 4 && (r.NotCopied? ==> attempts == 4 || r.why.DiskFull? || ctx.cause.Some?)
    ensures r.NotCopied? ==> Explains(d.h, d.honest, r.why, e, paranoid, content, ctx.cause)
    ensures Fine(ctx, d, e, content, paranoid) ==> r.Copied? && attempts == 1
    ensures old(ctx.cause).Some? ==> ctx.cause == old(ctx.cause)
    ensures m.Valid() && OnlyReports(m) && m.inflight <= |content|
  {
    attempts := 0;
    ghost var s0 := d.st;
    while true
      invariant 0 <= attempts <= RETRIES
      invariant d.Valid() && old(d.log) <= d.log && NothingDone(d.removes, s0, d.st, j)
      invariant old(ctx.cause).Some? ==> ctx.cause == old(ctx.cause)
      invariant m.Valid() && OnlyReports(m)
      invariant Fine(ctx, d, e, content, paranoid) ==> attempts == 0
      decreases RETRIES - attempts
    {
      ghost var tr := m.trace;
      r := Retry(ctx, d, j, e, content, dir, paranoid, m, s0);
      ProgressAddedTrans(old(m.trace), tr, m.trace);
      attempts := attempts + 1;
      if r.Copied? {
        return;
      }
      var last := AfterFailure(ctx, r.why, attempts);
      if last.Some? {
        return NotCopied(last.value), attempts;
      }
    }
  }

  /** After a failed attempt: the final failure, or `None` if another attempt is due. */
  method AfterFailure(ctx: Context, why: Failure, attempts: nat) returns (last: Option<Failure>)
    modifies ctx
    ensures last.Some? ==> attempts > RETRIES || why.DiskFull? || ctx.cause.Some?
    ensures last.Some? ==> last.value == why || (last.value.CtxDone? && ctx.cause.Some?)
    ensures last.Some? && last.value.DiskFull? ==> why.DiskFull?
    ensures last.None? ==> attempts <= RETRIES && !why.DiskFull? && ctx.cause.None?
    ensures last.Some? && last.value != why ==> !why.DiskFull? && attempts <= RETRIES
    ensures old(ctx.cause).Some? ==> ctx.cause == old(ctx.cause)
  {
    var stop := ctx.Cancelled();
    if stop || why.DiskFull? || attempts > RETRIES {
      return Some(why);
    }
    stop := ctx.Cancelled();   // while waiting for the retry delay
    last := if stop then Some(CtxDone) else None;
  }
}
