/** One ingest run, end to end: scan result, dedup plan, destination and space checks, copy
    loop, terminal status, eject. */
module JobRunner {
  import opened Text
  import opened Jobs
  import opened Names
  import opened CopyProtocol
  import opened DestVolume
  import opened Streaming
  import opened JobEvents
  import opened Progress
  import opened Copier
  import opened Dedup

  /** What a scan returns: no cardpit artifacts, nothing hashed yet, and sizes that are the
      sizes of the files. */
  predicate Scanned(card: Card, entries: seq<FileEntry>) {
    forall i :: 0 <= i < |entries| ==> ScannedEntry(card, entries[i])
  }

  predicate ScannedEntry(card: Card, e: FileEntry) {
    !IsTmpName(e.name) && e.knownHash.None? && e.size == |card(e.src)|
  }

  /** `p` is a complete, durable file with a checked hash, as long as `e` says, with `e`'s
      timestamp and the hash of `content`. */
  predicate Holds(h: Bytes -> Hash, s: State, p: Path, e: FileEntry, content: Bytes) {
    && p in s.files && p in s.receipts && !IsTmp(p)
    && Attested(h, s.files[p], s.receipts[p])
    && s.receipts[p].entry.size == e.size && s.receipts[p].entry.mtime == e.mtime
    && s.receipts[p].sum == h(content)
  }

  /** The file of job `j` at `p` is `e`'s: the whole of it, byte for byte on an honest medium. */
  predicate Ingested(h: Bytes -> Hash, honest: bool, s: State, j: JobId, p: Path, e: FileEntry, content: Bytes) {
    && p in s.receipts && s.receipts[p].owner == j && Holds(h, s, p, e, content)
    && s.receipts[p].content == content && (honest ==> s.files[p].data == content)
  }

  /** The destination holds what `e` is on the card. */
  predicate Secured(h: Bytes -> Hash, s: State, e: FileEntry, content: Bytes) {
    exists p :: p in s.files && Holds(h, s, p, e, content)
  }

  lemma SecuredForever(h: Bytes -> Hash, s: State, t: State, e: FileEntry, content: Bytes)
    requires Secured(h, s, e, content) && Extends(s, t)
    ensures Secured(h, t, e, content)
  {
    var p :| p in s.files && Holds(h, s, p, e, content);
    assert p in t.files && Holds(h, t, p, e, content);
  }

  /** Being in the index means being on the destination. */
  lemma IndexedIsSecured(h: Bytes -> Hash, s: State, e: FileEntry, content: Bytes)
    requires Inv(h, s) && ExistsHash(s.rows, e.size, e.mtime, h(content))
    ensures Secured(h, s, e, content)
  {
    var i :| 0 <= i < |s.rows| && s.rows[i].size == e.size && s.rows[i].mtime == e.mtime
             && s.rows[i].hash == h(content);
    assert RowOk(s, s.rows[i]);
    assert Holds(h, s, s.rows[i].dst, e, content);
  }

  /** With a hash that tells files apart, an honest medium has the very bytes. */
  lemma SecuredBytes(h: Bytes -> Hash, s: State, e: FileEntry, content: Bytes)
    requires Secured(h, s, e, content)
    requires forall a, b :: h(a) == h(b) ==> a == b
    requires forall p :: p in s.receipts ==> s.receipts[p].faithful
    ensures exists p :: p in s.files && !IsTmp(p) && s.files[p].data == content
  {
    var p :| p in s.files && Holds(h, s, p, e, content);
    assert s.files[p].data == s.receipts[p].content;
  }

  lemma {:induction false} RowsOfAreRows(rows: seq<Row>, j: JobId, r: Row)
    requires r in RowsOf(rows, j)
    ensures r in rows
  {
    if r != rows[|rows| - 1] {
      RowsOfAreRows(rows[..|rows| - 1], j, r);
    }
  }

  datatype FileResult = Stopped | FileFailed | FileCopied(dst: Path, recorded: bool)

  /** Job `j` has finalized `p` since `s`, and nothing else. */
  predicate OneMore(s: State, t: State, j: JobId, p: Path) {
    p !in s.receipts && p in t.receipts && Own(t, j) == Own(s, j)[p := t.receipts[p]]
  }

  /** Job `j`'s file at `p` is in the directory and under the first free name for `name`, and was checked
      as `paranoid` says. */
  ghost predicate Placed(s: State, p: Path, dir: string, name: string, paranoid: bool) {
    p in s.receipts && s.receipts[p].paranoid == paranoid && FirstName(s, p, dir, name)
  }

  lemma PlacedStays(s: State, t: State, p: Path, dir: string, name: string, paranoid: bool)
    requires Placed(s, p, dir, name, paranoid) && Extends(s, t) && !IsTmpName(name)
    ensures Placed(t, p, dir, name, paranoid)
  {
    var k: nat :| Taken(s, dir, name, k) && p == Path(dir, Candidate(name, k));
    TakenStays(s, t, dir, name, k);
  }

  /** Records a finalized file in the index. */
  method RecordFile(d: Destination, j: JobId, e: FileEntry, content: Bytes) returns (recorded: bool)
    requires d.Valid() && j in d.st.copies && d.st.copies[j].entry == e
    requires d.st.copies[j].phase.Finished? && d.st.copies[j].phase.sum == d.h(content)
    modifies d
    ensures d.Valid() && old(d.log) <= d.log && j !in d.st.copies
    ensures Extends(old(d.st), d.st) && Own(d.st, j) == Own(old(d.st), j)
    ensures recorded ==> ExistsHash(d.st.rows, e.size, e.mtime, d.h(content))
    ensures d.smooth ==> recorded
  {
    ghost var dst := d.st.copies[j].phase.dst;
    ghost var row := Row(j, e.src, dst, e.size, e.mtime, d.h(content));
    recorded := d.InsertRow(j);
    if recorded {
      assert row in RowsOf(d.st.rows, j) by {
        assert RowsOf(d.st.rows, j)[|RowsOf(d.st.rows, j)| - 1] == row;
      }
      RowsOfAreRows(d.st.rows, j, row);
      ghost var i :| 0 <= i < |d.st.rows| && d.st.rows[i] == row;
    }
  }

  /** What CopyOne finalized is `e`'s file. */
  lemma FinalizedIsIngested(h: Bytes -> Hash, honest: bool, removes: bool, s: State, t: State, j: JobId, e: FileEntry,
                            dir: string, paranoid: bool, content: Bytes, dst: Path)
    requires Inv(h, t) && OneFinalized(honest, removes, s, t, j, e, dir, paranoid, content, dst, h(content))
    ensures Ingested(h, honest, t, j, dst, e, content) && OneMore(s, t, j, dst)
    ensures Placed(t, dst, dir, e.name, paranoid)
  {
  }

  lemma OneMoreStays(h: Bytes -> Hash, honest: bool, s: State, t: State, u: State, j: JobId, p: Path, e: FileEntry,
                     content: Bytes)
    requires OneMore(s, t, j, p) && Extends(s, t) && Extends(t, u) && Own(u, j) == Own(t, j)
    requires Ingested(h, honest, t, j, p, e, content)
    ensures Extends(s, u) && OneMore(s, u, j, p) && Ingested(h, honest, u, j, p, e, content)
  {
    ExtendsTrans(s, t, u);
    IngestedForever(h, honest, t, u, j, p, e, content);
  }

  lemma IngestedForever(h: Bytes -> Hash, honest: bool, s: State, t: State, j: JobId, p: Path, e: FileEntry,
                        content: Bytes)
    requires Ingested(h, honest, s, j, p, e, content) && Extends(s, t)
    ensures Ingested(h, honest, t, j, p, e, content)
  {
  }

  lemma IngestedIsSecured(h: Bytes -> Hash, honest: bool, s: State, j: JobId, p: Path, e: FileEntry, content: Bytes)
    requires Ingested(h, honest, s, j, p, e, content)
    ensures Secured(h, s, e, content)
  {
  }

  /** Copies a file: `None` if it could not be copied. */
  method CopyFile(ctx: Context, d: Destination, j: JobId, e: FileEntry, content: Bytes, dir: string,
                  paranoid: bool, m: Meter) returns (dst: Option<Path>)
    requires d.Valid() && j !in d.st.copies && !IsTmpName(e.name) && e.size == |content|
    requires m.Valid() && m.bytesCopied + |content| <= m.bytesTotal
    modifies ctx, d, m
    ensures d.Valid() && old(d.log) <= d.log && Extends(old(d.st), d.st)
    ensures m.Valid() && OnlyReports(m)
    ensures m.inflight <= |content|
    ensures dst.None? ==> j !in d.st.copies && Own(d.st, j) == Own(old(d.st), j)
    ensures dst.Some? ==> j in d.st.copies && d.st.copies[j].entry == e
    ensures dst.Some? ==> d.st.copies[j].phase == Finished(d.h(content), dst.value)
    ensures dst.Some? ==>
              OneMore(old(d.st), d.st, j, dst.value) && Ingested(d.h, d.honest, d.st, j, dst.value, e, content)
              && Placed(d.st, dst.value, dir, e.name, paranoid)
    ensures Fine(ctx, d, e, content, paranoid) ==> dst.Some?
    ensures old(ctx.cause).Some? ==> ctx.cause == old(ctx.cause)
  {
    ghost var s0 := d.st;
    var out, attempts := CopyOne(ctx, d, j, e, content, dir, paranoid, m);
    if out.NotCopied? {
      return None;
    }
    d.Invariant();
    FinalizedIsIngested(d.h, d.honest, d.removes, s0, d.st, j, e, dir, paranoid, content, out.dst);
    dst := Some(out.dst);
  }

  /** Copies a file and records it. */
  method IngestFile(ctx: Context, d: Destination, j: JobId, e: FileEntry, content: Bytes, dir: string,
                    paranoid: bool, m: Meter) returns (dst: Option<Path>, recorded: bool)
    requires d.Valid() && j !in d.st.copies && !IsTmpName(e.name) && e.size == |content|
    requires m.Valid() && m.bytesCopied + |content| <= m.bytesTotal
    modifies ctx, d, m
    ensures d.Valid() && old(d.log) <= d.log && j !in d.st.copies && Extends(old(d.st), d.st)
    ensures m.Valid() && OnlyReports(m) && m.inflight == 0
    ensures dst.None? ==> Own(d.st, j) == Own(old(d.st), j)
    ensures dst.Some? ==>
              OneMore(old(d.st), d.st, j, dst.value) && Ingested(d.h, d.honest, d.st, j, dst.value, e, content)
              && Placed(d.st, dst.value, dir, e.name, paranoid)
    ensures Fine(ctx, d, e, content, paranoid) ==> dst.Some? && recorded
    ensures dst.Some? && recorded ==> ExistsHash(d.st.rows, e.size, e.mtime, d.h(content))
    ensures old(ctx.cause).Some? ==> ctx.cause == old(ctx.cause)
  {
    ghost var s0 := d.st;
    dst := CopyFile(ctx, d, j, e, content, dir, paranoid, m);
    m.inflight := 0;
    recorded := false;
    if dst.Some? {
      ghost var s1 := d.st;
      recorded := RecordFile(d, j, e, content);
      OneMoreStays(d.h, d.honest, s0, s1, d.st, j, dst.value, e, content);
      PlacedStays(s1, d.st, dst.value, dir, e.name, paranoid);
    }
  }

  lemma ExtendsTrans(s: State, t: State, u: State)
    requires Extends(s, t) && Extends(t, u)
    ensures Extends(s, u)
  {
  }

  /** One pass of the copy loop, the job not having been cancelled before it. */
  method CopyEntry(ctx: Context, d: Destination, j: JobId, e: FileEntry, content: Bytes, dir: string,
                   paranoid: bool, m: Meter) returns (res: FileResult)
    requires d.Valid() && j !in d.st.copies && !IsTmpName(e.name) && e.size == |content|
    requires m.Valid() && m.bytesCopied + e.size <= m.bytesTotal && m.inflight == 0
    requires m.filesCopied + m.filesFailed < m.filesTotal
    modifies ctx, d, m
    ensures d.Valid() && old(d.log) <= d.log && j !in d.st.copies && Extends(old(d.st), d.st)
    ensures m.Valid() && m.inflight == 0 && ProgressAdded(old(m.trace), m.trace)
    ensures m.filesCopied == old(m.filesCopied) + (if res.FileCopied? then 1 else 0)
    ensures m.filesFailed == old(m.filesFailed) + (if res.FileFailed? then 1 else 0)
    ensures m.bytesCopied == old(m.bytesCopied) + (if res.FileCopied? then e.size else 0)
    ensures m.filesTotal == old(m.filesTotal) && m.filesSkipped == old(m.filesSkipped)
    ensures m.bytesTotal == old(m.bytesTotal)
    ensures res.Stopped? ==> ctx.cause.Some?
    ensures !res.FileCopied? ==> Own(d.st, j) == Own(old(d.st), j)
    ensures res.FileCopied? ==>
              OneMore(old(d.st), d.st, j, res.dst) && Ingested(d.h, d.honest, d.st, j, res.dst, e, content)
              && Placed(d.st, res.dst, dir, e.name, paranoid)
    ensures Fine(ctx, d, e, content, paranoid) ==> res.FileCopied? && res.recorded
    ensures res.FileCopied? && res.recorded ==> ExistsHash(d.st.rows, e.size, e.mtime, d.h(content))
    ensures old(ctx.cause).Some? ==> ctx.cause == old(ctx.cause)
  {
    var dst, recorded := IngestFile(ctx, d, j, e, content, dir, paranoid, m);
    ghost var tr := m.trace;
    if dst.Some? {
      m.FileDone(e.size);
      ProgressAddedTrans(old(m.trace), tr, m.trace);
      return FileCopied(dst.value, recorded);
    }
    var stop := ctx.Cancelled();
    if stop {
      return Stopped;
    }
    m.FileLost();
    ProgressAddedTrans(old(m.trace), tr, m.trace);
    res := FileFailed;
  }

  function TotalSize(es: seq<FileEntry>): nat {
    if es == [] then 0 else es[0].size + TotalSize(es[1..])
  }

  /** All the positions have all the bytes. */
  lemma {:induction false} SizeOfAll(es: seq<FileEntry>, done: seq<nat>)
    requires |done| == |es| && forall i :: 0 <= i < |done| ==> done[i] == i
    ensures SizeOf(es, done) == TotalSize(es)
  {
    if es != [] {
      var n := |es| - 1;
      SizeOfAll(es[..n], done[..n]);
      SizeOfFront(es, done[..n]);
      TotalSizeMore(es[..n], es[n]);
      assert es == es[..n] + [es[n]];
    }
  }

  lemma {:induction false} SizeOfFront(es: seq<FileEntry>, done: seq<nat>)
    requires es != [] && forall i :: 0 <= i < |done| ==> done[i] < |es| - 1
    ensures SizeOf(es, done) == SizeOf(es[..|es| - 1], done)
  {
    if done != [] {
      SizeOfFront(es, done[..|done| - 1]);
    }
  }

  lemma {:induction false} TotalSizeMore(es: seq<FileEntry>, e: FileEntry)
    ensures TotalSize(es + [e]) == TotalSize(es) + e.size
  {
    if es != [] {
      assert (es + [e])[1..] == es[1..] + [e];
      TotalSizeMore(es[1..], e);
    }
  }

  /** Bytes of the files at positions `done` of `es`. */
  function SizeOf(es: seq<FileEntry>, done: seq<nat>): nat
    requires forall i :: 0 <= i < |done| ==> done[i] < |es|
  {
    if done == [] then 0 else SizeOf(es, done[..|done| - 1]) + es[done[|done| - 1]].size
  }

  /** The files at positions `done` are on the destination as `dsts`, job `j`'s own, and those
      recorded are in the index. */
  predicate Landed(h: Bytes -> Hash, honest: bool, s: State, j: JobId, card: Card, es: seq<FileEntry>,
                   done: seq<nat>, dsts: seq<Path>, recorded: seq<bool>) {
    && Increasing(done, |es|) && |recorded| == |dsts| == |done|
    && (forall i :: 0 <= i < |done| ==> Ingested(h, honest, s, j, dsts[i], es[done[i]], card(es[done[i]].src)))
    && (forall i :: 0 <= i < |done| && recorded[i] ==> Indexed(h, card, s.rows, es[done[i]]))
  }

  lemma LandedForever(h: Bytes -> Hash, honest: bool, s: State, t: State, j: JobId, card: Card, es: seq<FileEntry>,
                      done: seq<nat>, dsts: seq<Path>, recorded: seq<bool>)
    requires Landed(h, honest, s, j, card, es, done, dsts, recorded) && Extends(s, t)
    ensures Landed(h, honest, t, j, card, es, done, dsts, recorded)
  {
    forall i | 0 <= i < |done| ensures Ingested(h, honest, t, j, dsts[i], es[done[i]], card(es[done[i]].src)) {
      IngestedForever(h, honest, s, t, j, dsts[i], es[done[i]], card(es[done[i]].src));
    }
    forall i | 0 <= i < |done| && recorded[i] ensures Indexed(h, card, t.rows, es[done[i]]) {
      IndexedGrows(h, card, s.rows, t.rows, es[done[i]]);
    }
  }

  lemma LandedAdd(h: Bytes -> Hash, honest: bool, s: State, j: JobId, card: Card, es: seq<FileEntry>, done: seq<nat>,
                  dsts: seq<Path>, recorded: seq<bool>, k: nat, dst: Path, ok: bool)
    requires Landed(h, honest, s, j, card, es, done, dsts, recorded) && Increasing(done, k) && k < |es|
    requires Ingested(h, honest, s, j, dst, es[k], card(es[k].src))
    requires ok ==> Indexed(h, card, s.rows, es[k])
    ensures Landed(h, honest, s, j, card, es, done + [k], dsts + [dst], recorded + [ok])
  {
  }

  /** The files at positions `done` are where `dirOf` puts them, under their first free names. */
  ghost predicate AllPlaced(s: State, es: seq<FileEntry>, done: seq<nat>, dsts: seq<Path>, dirOf: string -> string,
                            paranoid: bool) {
    |dsts| == |done| && forall i :: 0 <= i < |done| ==>
      done[i] < |es| && Placed(s, dsts[i], dirOf(es[done[i]].mtime), es[done[i]].name, paranoid)
  }

  lemma AllPlacedStays(s: State, t: State, card: Card, es: seq<FileEntry>, done: seq<nat>, dsts: seq<Path>,
                       dirOf: string -> string, paranoid: bool)
    requires AllPlaced(s, es, done, dsts, dirOf, paranoid) && Extends(s, t) && Copyable(card, es)
    ensures AllPlaced(t, es, done, dsts, dirOf, paranoid)
  {
    forall i | 0 <= i < |done|
      ensures Placed(t, dsts[i], dirOf(es[done[i]].mtime), es[done[i]].name, paranoid)
    {
      PlacedStays(s, t, dsts[i], dirOf(es[done[i]].mtime), es[done[i]].name, paranoid);
    }
  }

  lemma AllPlacedNext(s: State, t: State, card: Card, es: seq<FileEntry>, done: seq<nat>, dsts: seq<Path>,
                      dirOf: string -> string, paranoid: bool, k: nat, res: FileResult)
    requires AllPlaced(s, es, done, dsts, dirOf, paranoid) && Extends(s, t) && Copyable(card, es) && k < |es|
    requires res.FileCopied? ==> Placed(t, res.dst, dirOf(es[k].mtime), es[k].name, paranoid)
    ensures if res.FileCopied? then AllPlaced(t, es, done + [k], dsts + [res.dst], dirOf, paranoid)
            else AllPlaced(t, es, done, dsts, dirOf, paranoid)
  {
    AllPlacedStays(s, t, card, es, done, dsts, dirOf, paranoid);
  }

  /** What job `j` has finalized since `s`: `dsts`, each once, and nothing else. */
  predicate Footprint(s: State, t: State, j: JobId, dsts: seq<Path>) {
    && (forall i :: 0 <= i < |dsts| ==> dsts[i] !in s.receipts && dsts[i] in t.receipts)
    && (forall i, k :: 0 <= i < k < |dsts| ==> dsts[i] != dsts[k])
    && (forall p :: p in t.receipts && t.receipts[p].owner == j ==> p in s.receipts || p in dsts)
  }

  lemma FootprintGrows(s: State, t: State, u: State, j: JobId, dsts: seq<Path>, dst: Path)
    requires Footprint(s, t, j, dsts) && Extends(s, t) && Extends(t, u) && OneMore(t, u, j, dst)
    ensures Footprint(s, u, j, dsts + [dst])
  {
    forall p | p in u.receipts && u.receipts[p].owner == j ensures p in s.receipts || p in dsts + [dst] {
      assert p in Own(u, j);
      assert p != dst ==> p in Own(t, j);
    }
  }

  lemma FootprintStays(s: State, t: State, u: State, j: JobId, dsts: seq<Path>)
    requires Footprint(s, t, j, dsts) && Extends(t, u) && Own(u, j) == Own(t, j)
    ensures Footprint(s, u, j, dsts)
  {
    forall p | p in u.receipts && u.receipts[p].owner == j ensures p in s.receipts || p in dsts {
      assert p in Own(u, j);
    }
  }

  lemma LandedGrows(h: Bytes -> Hash, honest: bool, s: State, t: State, u: State, j: JobId, card: Card,
                    es: seq<FileEntry>, done: seq<nat>, dsts: seq<Path>, recorded: seq<bool>, k: nat, dst: Path,
                    ok: bool)
    requires Landed(h, honest, t, j, card, es, done, dsts, recorded) && Footprint(s, t, j, dsts)
    requires Extends(s, t) && Extends(t, u) && OneMore(t, u, j, dst) && Increasing(done, k) && k < |es|
    requires Ingested(h, honest, u, j, dst, es[k], card(es[k].src)) && (ok ==> Indexed(h, card, u.rows, es[k]))
    ensures Landed(h, honest, u, j, card, es, done + [k], dsts + [dst], recorded + [ok])
    ensures Footprint(s, u, j, dsts + [dst])
  {
    LandedForever(h, honest, t, u, j, card, es, done, dsts, recorded);
    LandedAdd(h, honest, u, j, card, es, done, dsts, recorded, k, dst, ok);
    FootprintGrows(s, t, u, j, dsts, dst);
  }

  lemma LandedStays(h: Bytes -> Hash, honest: bool, s: State, t: State, u: State, j: JobId, card: Card,
                    es: seq<FileEntry>, done: seq<nat>, dsts: seq<Path>, recorded: seq<bool>)
    requires Landed(h, honest, t, j, card, es, done, dsts, recorded) && Footprint(s, t, j, dsts)
    requires Extends(t, u) && Own(u, j) == Own(t, j)
    ensures Landed(h, honest, u, j, card, es, done, dsts, recorded) && Footprint(s, u, j, dsts)
  {
    LandedForever(h, honest, t, u, j, card, es, done, dsts, recorded);
    FootprintStays(s, t, u, j, dsts);
  }

  lemma LandedNext(h: Bytes -> Hash, honest: bool, s: State, t: State, u: State, j: JobId, card: Card,
                   es: seq<FileEntry>, done: seq<nat>, dsts: seq<Path>, recorded: seq<bool>, k: nat, res: FileResult)
    requires Landed(h, honest, t, j, card, es, done, dsts, recorded) && Footprint(s, t, j, dsts)
    requires Extends(s, t) && Extends(t, u) && Increasing(done, k) && k < |es|
    requires !res.FileCopied? ==> Own(u, j) == Own(t, j)
    requires res.FileCopied? ==>
               OneMore(t, u, j, res.dst) && Ingested(h, honest, u, j, res.dst, es[k], card(es[k].src))
    requires res.FileCopied? && res.recorded ==> Indexed(h, card, u.rows, es[k])
    ensures if res.FileCopied?
            then Landed(h, honest, u, j, card, es, done + [k], dsts + [res.dst], recorded + [res.recorded])
                 && Footprint(s, u, j, dsts + [res.dst])
            else Landed(h, honest, u, j, card, es, done, dsts, recorded) && Footprint(s, u, j, dsts)
  {
    if res.FileCopied? {
      LandedGrows(h, honest, s, t, u, j, card, es, done, dsts, recorded, k, res.dst, res.recorded);
    } else {
      LandedStays(h, honest, s, t, u, j, card, es, done, dsts, recorded);
    }
  }

  /** The counters after `k` files, `done` of them copied. */
  predicate Tally(es: seq<FileEntry>, k: nat, done: seq<nat>, copied: nat, failed: nat, bytes: nat, total: nat) {
    && k <= |es| && Increasing(done, k)
    && copied == |done| && copied + failed == k
    && bytes == SizeOf(es, done) && bytes + TotalSize(es[k..]) <= total
    && (failed == 0 ==> forall i :: 0 <= i < k ==> done[i] == i)
  }

  lemma TallyStep(es: seq<FileEntry>, k: nat, done: seq<nat>, copied: nat, failed: nat, bytes: nat, total: nat)
    requires Tally(es, k, done, copied, failed, bytes, total) && k < |es|
    ensures bytes + es[k].size <= total
    ensures Tally(es, k + 1, done, copied, failed + 1, bytes, total)
    ensures Tally(es, k + 1, done + [k], copied + 1, failed, bytes + es[k].size, total)
  {
    assert es[k..][0] == es[k] && es[k..][1..] == es[k + 1..];
    assert (done + [k])[..|done|] == done;
  }

  lemma TallyNext(es: seq<FileEntry>, k: nat, done: seq<nat>, copied: nat, failed: nat, bytes: nat, total: nat,
                  res: FileResult)
    requires Tally(es, k, done, copied, failed, bytes, total) && k < |es|
    ensures match res
      case Stopped => true
      case FileFailed => Tally(es, k + 1, done, copied, failed + 1, bytes, total)
      case FileCopied(_, _) => Tally(es, k + 1, done + [k], copied + 1, failed, bytes + es[k].size, total)
  {
    TallyStep(es, k, done, copied, failed, bytes, total);
  }

  lemma TallyRoom(es: seq<FileEntry>, k: nat, done: seq<nat>, copied: nat, failed: nat, bytes: nat, total: nat)
    requires Tally(es, k, done, copied, failed, bytes, total) && k < |es|
    ensures bytes + es[k].size <= total && copied + failed < |es| && Increasing(done, k)
  {
    TallyStep(es, k, done, copied, failed, bytes, total);
  }

  /** `k` files have been handled since the destination was in state `s0`, `done` of them copied. */
  ghost predicate Handled(h: Bytes -> Hash, honest: bool, s0: State, s: State, j: JobId, card: Card, es: seq<FileEntry>,
                          k: nat, done: seq<nat>, dsts: seq<Path>, recorded: seq<bool>, dirOf: string -> string,
                          paranoid: bool, copied: nat, failed: nat, bytes: nat, total: nat) {
    && Extends(s0, s)
    && Landed(h, honest, s, j, card, es, done, dsts, recorded) && Footprint(s0, s, j, dsts)
    && AllPlaced(s, es, done, dsts, dirOf, paranoid)
    && Tally(es, k, done, copied, failed, bytes, total)
  }

  lemma HandledNext(h: Bytes -> Hash, honest: bool, s0: State, s: State, t: State, j: JobId, card: Card,
                    es: seq<FileEntry>, k: nat, done: seq<nat>, dsts: seq<Path>, recorded: seq<bool>,
                    dirOf: string -> string, paranoid: bool, copied: nat, failed: nat, bytes: nat, total: nat,
                    res: FileResult)
    requires Handled(h, honest, s0, s, j, card, es, k, done, dsts, recorded, dirOf, paranoid, copied, failed, bytes,
                     total)
    requires k < |es| && Copyable(card, es) && Extends(s, t)
    requires !res.FileCopied? ==> Own(t, j) == Own(s, j)
    requires res.FileCopied? ==>
               OneMore(s, t, j, res.dst) && Ingested(h, honest, t, j, res.dst, es[k], card(es[k].src))
               && Placed(t, res.dst, dirOf(es[k].mtime), es[k].name, paranoid)
    requires res.FileCopied? && res.recorded ==> Indexed(h, card, t.rows, es[k])
    ensures match res
      case Stopped =>
        Handled(h, honest, s0, t, j, card, es, k, done, dsts, recorded, dirOf, paranoid, copied, failed, bytes, total)
      case FileFailed =>
        Handled(h, honest, s0, t, j, card, es, k + 1, done, dsts, recorded, dirOf, paranoid, copied, failed + 1, bytes,
                total)
      case FileCopied(dst, ok) =>
        Handled(h, honest, s0, t, j, card, es, k + 1, done + [k], dsts + [dst], recorded + [ok], dirOf, paranoid,
                copied + 1, failed, bytes + es[k].size, total)
  {
    ExtendsTrans(s0, s, t);
    TallyNext(es, k, done, copied, failed, bytes, total, res);
    LandedNext(h, honest, s0, s, t, j, card, es, done, dsts, recorded, k, res);
    AllPlacedNext(s, t, card, es, done, dsts, dirOf, paranoid, k, res);
  }

  /** What holds between two passes of the copy loop, `k` files having been handled since the
      destination was in state `s0` and the trace was `t0`. */
  ghost predicate CopyLoop(d: Destination, m: Meter, j: JobId, card: Card, es: seq<FileEntry>, k: nat,
                           done: seq<nat>, dsts: seq<Path>, recorded: seq<bool>, dirOf: string -> string,
                           paranoid: bool, s0: State, t0: seq<Effect>)
    reads d, m
  {
    && d.Valid() && j !in d.st.copies
    && Handled(d.h, d.honest, s0, d.st, j, card, es, k, done, dsts, recorded, dirOf, paranoid, m.filesCopied,
               m.filesFailed, m.bytesCopied, m.bytesTotal)
    && m.Valid() && m.inflight == 0 && ProgressAdded(t0, m.trace) && m.filesTotal == |es|
  }

  predicate Copyable(card: Card, es: seq<FileEntry>) {
    forall i :: 0 <= i < |es| ==> !IsTmpName(es[i].name) && es[i].size == |card(es[i].src)|
  }

  /** Hashes noted in the plan are the files'. */
  predicate AllAsPlanned(h: Bytes -> Hash, card: Card, es: seq<FileEntry>) {
    forall i :: 0 <= i < |es| ==> AsPlanned(h, es[i], card(es[i].src))
  }

  predicate AllTrue(bs: seq<bool>) {
    false !in bs
  }

  /** No call failing, on an honest medium, and the plan being right (`fits`), no file has failed so far
      or is missing from the index. */
  ghost predicate Unfailing(ctx: Context, d: Destination, m: Meter, fits: bool, recorded: seq<bool>)
    reads ctx, d, m
  {
    Smooth(ctx, d) && d.honest && fits ==> m.filesFailed == 0 && AllTrue(recorded)
  }

  /** What one pass adds to the failures and the record. */
  predicate Next(res: FileResult, failed: nat, failed': nat, recorded: seq<bool>, recorded': seq<bool>) {
    && failed' == failed + (if res.FileFailed? then 1 else 0)
    && recorded' == if res.FileCopied? then recorded + [res.recorded] else recorded
  }

  /** Handles file `k`. */
  method CopyEach(ctx: Context, d: Destination, j: JobId, card: Card, toCopy: seq<FileEntry>, k: nat,
                  done: seq<nat>, dsts: seq<Path>, recorded: seq<bool>, dirOf: string -> string, paranoid: bool,
                  m: Meter, ghost s0: State, ghost t0: seq<Effect>)
    returns (res: FileResult, done': seq<nat>, dsts': seq<Path>, recorded': seq<bool>)
    requires CopyLoop(d, m, j, card, toCopy, k, done, dsts, recorded, dirOf, paranoid, s0, t0)
    requires k < |toCopy| && Copyable(card, toCopy)
    modifies ctx, d, m
    ensures old(d.log) <= d.log
    ensures CopyLoop(d, m, j, card, toCopy, if res.Stopped? then k else k + 1, done', dsts', recorded', dirOf, paranoid,
                     s0, t0)
    ensures Next(res, old(m.filesFailed), m.filesFailed, recorded, recorded')
    ensures Fine(ctx, d, toCopy[k], card(toCopy[k].src), paranoid) ==> res.FileCopied? && res.recorded
    ensures m.filesSkipped == old(m.filesSkipped) && m.bytesTotal == old(m.bytesTotal)
    ensures res.Stopped? ==> ctx.cause.Some?
    ensures old(ctx.cause).Some? ==> ctx.cause == old(ctx.cause)
  {
    var e := toCopy[k];
    TallyRoom(toCopy, k, done, m.filesCopied, m.filesFailed, m.bytesCopied, m.bytesTotal);
    ghost var s, tr := d.st, m.trace;
    ghost var copied, failed, bytes := m.filesCopied, m.filesFailed, m.bytesCopied;
    res := CopyEntry(ctx, d, j, e, card(e.src), dirOf(e.mtime), paranoid, m);
    ProgressAddedTrans(t0, tr, m.trace);
    HandledNext(d.h, d.honest, s0, s, d.st, j, card, toCopy, k, done, dsts, recorded, dirOf, paranoid, copied, failed,
                bytes, m.bytesTotal, res);
    done', dsts', recorded' := done, dsts, recorded;
    if res.FileCopied? {
      done', dsts', recorded' := done + [k], dsts + [res.dst], recorded + [res.recorded];
    }
  }

  /** The pass for file `k`: nothing happens if the job is cancelled by then. */
  method CopyNext(ctx: Context, d: Destination, j: JobId, card: Card, toCopy: seq<FileEntry>, k: nat,
                  done: seq<nat>, dsts: seq<Path>, recorded: seq<bool>, dirOf: string -> string, paranoid: bool,
                  m: Meter, ghost s0: State, ghost t0: seq<Effect>, ghost fits: bool)
    returns (res: FileResult, done': seq<nat>, dsts': seq<Path>, recorded': seq<bool>)
    requires CopyLoop(d, m, j, card, toCopy, k, done, dsts, recorded, dirOf, paranoid, s0, t0)
    requires k < |toCopy| && Copyable(card, toCopy)
    requires Unfailing(ctx, d, m, fits, recorded) && (fits ==> AsPlanned(d.h, toCopy[k], card(toCopy[k].src)))
    modifies ctx, d, m
    ensures old(d.log) <= d.log
    ensures CopyLoop(d, m, j, card, toCopy, if res.Stopped? then k else k + 1, done', dsts', recorded', dirOf, paranoid,
                     s0, t0)
    ensures Unfailing(ctx, d, m, fits, recorded')
    ensures m.filesSkipped == old(m.filesSkipped) && m.bytesTotal == old(m.bytesTotal)
    ensures res.Stopped? ==> ctx.cause.Some?
    ensures old(ctx.cause).Some? ==> ctx.cause == old(ctx.cause) && res.Stopped?
  {
    var stop := ctx.Cancelled();
    if stop {
      return Stopped, done, dsts, recorded;
    }
    res, done', dsts', recorded' :=
      CopyEach(ctx, d, j, card, toCopy, k, done, dsts, recorded, dirOf, paranoid, m, s0, t0);
  }

  /** The copy loop. `done` are the positions copied, in order; `completed` is false if the
      job was cancelled before the last file. */
  method CopyAll(ctx: Context, d: Destination, j: JobId, card: Card, toCopy: seq<FileEntry>,
                 dirOf: string -> string, paranoid: bool, m: Meter)
    returns (completed: bool, k: nat, done: seq<nat>, dsts: seq<Path>, recorded: seq<bool>)
    requires d.Valid() && j !in d.st.copies && Copyable(card, toCopy)
    requires m.Valid() && m.inflight == m.bytesCopied == m.filesCopied == m.filesFailed == 0
    requires m.filesTotal == |toCopy| && m.bytesTotal == TotalSize(toCopy)
    modifies ctx, d, m
    ensures old(d.log) <= d.log
    ensures CopyLoop(d, m, j, card, toCopy, k, done, dsts, recorded, dirOf, paranoid, old(d.st), old(m.trace))
    ensures m.filesSkipped == old(m.filesSkipped) && m.bytesTotal == old(m.bytesTotal)
    ensures if completed then k == |toCopy| else ctx.cause.Some?
    ensures Unfailing(ctx, d, m, AllAsPlanned(d.h, card, toCopy), recorded)
    ensures old(ctx.cause).Some? ==> ctx.cause == old(ctx.cause)
  {
    k, done, dsts, recorded := 0, [], [], [];
    ghost var s0, t0 := d.st, m.trace;
    ghost var fits := AllAsPlanned(d.h, card, toCopy);
    assert toCopy[0..] == toCopy;
    while k < |toCopy|
      invariant old(d.log) <= d.log
      invariant CopyLoop(d, m, j, card, toCopy, k, done, dsts, recorded, dirOf, paranoid, s0, t0)
      invariant Unfailing(ctx, d, m, fits, recorded)
      invariant m.filesSkipped == old(m.filesSkipped) && m.bytesTotal == old(m.bytesTotal)
      invariant old(ctx.cause).Some? ==> ctx.cause == old(ctx.cause)
    {
      var res;
      res, done, dsts, recorded :=
        CopyNext(ctx, d, j, card, toCopy, k, done, dsts, recorded, dirOf, paranoid, m, s0, t0, fits);
      if res.Stopped? {
        return false, k, done, dsts, recorded;
      }
      k := k + 1;
    }
    completed := true;
  }

  // ---- the free-space check, in 64-bit arithmetic -----------------------------------------

  const SPACE_MARGIN := 268435456             // 256 MiB
  const TWO64 := 18446744073709551616

  const TWO63 := 9223372036854775808

  /** uint64(bytesTotal) + spaceMargin, in 64 bits. */
  function Need(total: nat): (n: nat)
    ensures n < TWO64
  {
    (total % TWO64 + SPACE_MARGIN) % TWO64
  }

  /** No byte count of the source's signed 64 bits makes it wrap around. */
  lemma NeedIsSum(total: nat)
    requires total < TWO63
    ensures Need(total) == total + 268435456
  {
  }

  // ---- the run ----------------------------------------------------------------------------

  datatype Settings = Settings(paranoid: bool, eject: bool)

  /** What the platform answers: the scan, whether a lookup that gets as far as asking it finds the
      destination, its free bytes. */
  datatype Platform = Platform(scan: Option<seq<FileEntry>>, mounted: bool, free: Option<nat>)

  /** `Blocked`: stay pending until the destination shows up. Everything else is terminal. */
  datatype RunEnd = Blocked | Ended(status: Status)

  /** Status a cancelled or failed run ends with. */
  function FailStatus(cause: Option<Cause>): Status {
    if cause == Some(UserCancelled) then Cancelled else Failed
  }

  lemma TrackStep(before: seq<Effect>, e: Effect)
    ensures FollowAll(RUN_START, before + [e]) == Follow(FollowAll(RUN_START, before), e)
  {
    FollowOne(RUN_START, before, e);
  }

  lemma TrackFailure(before: seq<Effect>, status: Status, e: Effect)
    requires FollowAll(RUN_START, before) == RUN_START && (status.Failed? || status.Cancelled?)
    requires e.Published? && e.topic == JobFailed && e.jobStatus == status
    ensures FollowAll(RUN_START, before + [WroteStatus(status)] + [e]) == Track(Closed, status)
    ensures LastWrites(before + [WroteStatus(status)] + [e]) == LastWrites(before)
  {
    TwoWrites(before, WroteStatus(status), e);
    var written := before + [WroteStatus(status)];
    TrackStep(before, WroteStatus(status));
    assert FollowAll(RUN_START, written) == Track(Fresh, status);
    TrackStep(written, e);
    assert FollowAll(RUN_START, written + [e]) == Track(Closed, status);
  }

  /** The run's last event says how it ended, and by the counters. */
  predicate LastSays(m: Meter, status: Status)
    reads m
  {
    && m.trace != []
    && m.trace[|m.trace| - 1] ==
         Published(if status == Done then JobCompleted else JobFailed, status, m.filesCopied, m.filesFailed,
                   m.bytesCopied + m.inflight, m.bytesTotal)
  }

  lemma TwoWrites(before: seq<Effect>, e: Effect, f: Effect)
    requires e.WroteStatus? || e.Ejected? || e.Published?
    requires f.WroteStatus? || f.Ejected? || f.Published?
    ensures LastWrites(before + [e]) == LastWrites(before)
    ensures LastWrites(before + [e] + [f]) == LastWrites(before)
  {
    LastWritesStep(before, e);
    LastWritesStep(before + [e], f);
  }

  /** Fails the run before any file was touched. */
  method FailRun(ctx: Context, m: Meter) returns (end: RunEnd)
    requires FollowAll(RUN_START, m.trace) == RUN_START && Ejected !in m.trace
    modifies ctx, m`trace
    ensures end.Ended? && end.status == FailStatus(ctx.cause)
    ensures FollowAll(RUN_START, m.trace) == Track(Closed, end.status)
    ensures LastSays(m, end.status) && LastWrites(m.trace) == LastWrites(old(m.trace))
    ensures Ejected !in m.trace
    ensures old(ctx.cause).Some? ==> ctx.cause == old(ctx.cause)
  {
    var stop := ctx.Cancelled();
    var status := FailStatus(ctx.cause);
    ghost var last := Published(JobFailed, status, m.filesCopied, m.filesFailed, m.bytesCopied + m.inflight,
                                m.bytesTotal);
    TrackFailure(m.trace, status, last);
    m.Emit(WroteStatus(status));
    m.Publish(JobFailed, status);
    assert m.trace == old(m.trace) + [WroteStatus(status)] + [last];
    end := Ended(status);
  }

  /** The terminal state of a run whose copy loop is over. */
  method Finish(ctx: Context, m: Meter, eject: bool) returns (end: RunEnd)
    requires FollowAll(RUN_START, m.trace) == Track(Moving, Copying) && Ejected !in m.trace
    modifies ctx, m`trace
    ensures end.Ended? && FollowAll(RUN_START, m.trace) == Track(Closed, end.status)
    ensures ctx.cause.Some? ==> end.status == FailStatus(ctx.cause)
    ensures ctx.cause.None? ==> end.status == Done
    ensures Ejected in m.trace <==> end.status == Done && m.filesFailed == 0 && eject
    ensures LastSays(m, end.status) && LastWrites(m.trace) == LastWrites(old(m.trace))
    ensures old(ctx.cause).Some? ==> ctx.cause == old(ctx.cause)
  {
    var stop := ctx.Cancelled();
    var status := if stop then FailStatus(ctx.cause) else Done;
    TrackStep(m.trace, WroteStatus(status));
    LastWritesStep(m.trace, WroteStatus(status));
    m.Emit(WroteStatus(status));
    if !stop && m.filesFailed == 0 && eject {
      TrackStep(m.trace, Ejected);
      LastWritesStep(m.trace, Ejected);
      m.Emit(Ejected);
    }
    var topic := if stop then JobFailed else JobCompleted;
    ghost var last := Published(topic, status, m.filesCopied, m.filesFailed, m.bytesCopied + m.inflight, m.bytesTotal);
    TrackStep(m.trace, last);
    LastWritesStep(m.trace, last);
    m.Publish(topic, status);
    end := Ended(status);
  }

  /** Starts the job: status copying, JobStarted. */
  method Start(m: Meter)
    requires FollowAll(RUN_START, m.trace) == RUN_START && Ejected !in m.trace
    modifies m`trace
    ensures FollowAll(RUN_START, m.trace) == Track(Started, Copying) && Ejected !in m.trace
    ensures LastWrites(m.trace) == LastWrites(old(m.trace))
  {
    TwoWrites(m.trace, WroteStatus(Copying), Published(JobStarted, Copying, m.filesCopied, m.filesFailed,
                                                       m.bytesCopied + m.inflight, m.bytesTotal));
    TrackStep(m.trace, WroteStatus(Copying));
    m.Emit(WroteStatus(Copying));
    TrackStep(m.trace, Published(JobStarted, Copying, m.filesCopied, m.filesFailed, m.bytesCopied + m.inflight,
                                 m.bytesTotal));
    m.Publish(JobStarted, Copying);
  }

  /** The last, forced flush. */
  method FlushLast(m: Meter)
    requires m.Valid()
    requires var t := FollowAll(RUN_START, m.trace); (t.phase.Started? || t.phase.Moving?) && t.status == Copying
    requires Ejected !in m.trace
    modifies m`sinceFlush, m`lastFlush, m`trace
    ensures FollowAll(RUN_START, m.trace) == Track(Moving, Copying) && Ejected !in m.trace
    ensures LastWrites(m.trace) ==
              LastWrites(old(m.trace)).(progress := Some((m.filesCopied, m.bytesCopied, m.filesFailed)))
  {
    var w := WroteProgress(m.filesCopied, m.bytesCopied, m.filesFailed);
    var p := Published(JobProgress, Copying, m.filesCopied, m.filesFailed, m.bytesCopied + m.inflight, m.bytesTotal);
    TrackStep(m.trace, w);
    TrackStep(m.trace + [w], p);
    LastWritesStep(m.trace, w);
    LastWritesStep(m.trace + [w], p);
    assert m.trace + [w] + [p] == m.trace + [w, p];
    var now := m.Flush(true);
  }

  lemma ProgressOnlyTracked(before: seq<Effect>, after: seq<Effect>)
    requires ProgressAdded(before, after)
    requires FollowAll(RUN_START, before) == Track(Started, Copying) && Ejected !in before
    ensures var t := FollowAll(RUN_START, after); (t.phase.Started? || t.phase.Moving?) && t.status == Copying
    ensures Ejected !in after
  {
    FollowProgress(RUN_START, before, after);
    forall i | 0 <= i < |after| ensures after[i] != Ejected {
      if i < |before| {
        assert after[i] == before[i] && before[i] in before;
      }
    }
  }

  /** Sets the totals of the run. */
  method SetTotals(m: Meter, toCopy: seq<FileEntry>, skipped: nat)
    requires m.Counters() == (0, 0, 0, 0, 0, 0) && m.inflight == 0 && m.trace == []
    modifies m
    ensures m.Counters() == (0, 0, skipped, |toCopy|, 0, TotalSize(toCopy)) && m.inflight == 0
    ensures FollowAll(RUN_START, m.trace) == RUN_START && Ejected !in m.trace
    ensures LastWrites(m.trace) == Numbers(Some((|toCopy|, TotalSize(toCopy), skipped)), None)
  {
    m.filesSkipped, m.filesTotal := skipped, |toCopy|;
    assert toCopy[0..] == toCopy;
    for k := 0 to |toCopy|
      invariant m.Counters() == (0, 0, skipped, |toCopy|, 0, m.bytesTotal) && m.inflight == 0 && m.trace == []
      invariant m.bytesTotal + TotalSize(toCopy[k..]) == TotalSize(toCopy)
    {
      assert toCopy[k..][0] == toCopy[k] && toCopy[k..][1..] == toCopy[k + 1..];
      m.bytesTotal := m.bytesTotal + toCopy[k].size;
    }
    TrackStep([], WroteTotals(m.filesTotal, m.bytesTotal, m.filesSkipped));
    assert [] + [WroteTotals(m.filesTotal, m.bytesTotal, m.filesSkipped)]
        == [WroteTotals(m.filesTotal, m.bytesTotal, m.filesSkipped)];
    LastWritesStep([], WroteTotals(m.filesTotal, m.bytesTotal, m.filesSkipped));
    m.Emit(WroteTotals(m.filesTotal, m.bytesTotal, m.filesSkipped));
  }
}
