/** The two-stage dedup decision against the permanent index. */
module Dedup {
  import opened Text
  import opened Jobs
  import opened CopyProtocol
  import opened DestVolume
  import opened Streaming

  /** Contents of the card, by source path; stable while a run reads it. */
  type Card = string -> Bytes

  /** First stage: some ingested file has this size and timestamp. */
  predicate HasSizeMtime(rows: seq<Row>, size: nat, mtime: string) {
    exists i :: 0 <= i < |rows| && rows[i].size == size && rows[i].mtime == mtime
  }

  /** Second stage: some ingested file has this size, timestamp and hash. */
  predicate ExistsHash(rows: seq<Row>, size: nat, mtime: string, hash: Hash) {
    exists i :: 0 <= i < |rows| && rows[i].size == size && rows[i].mtime == mtime && rows[i].hash == hash
  }

  /** The simple rule: this very file, by size, timestamp and content hash, was ingested. */
  predicate Indexed(h: Bytes -> Hash, card: Card, rows: seq<Row>, e: FileEntry) {
    ExistsHash(rows, e.size, e.mtime, h(card(e.src)))
  }

  /** What happens to `e` when the index holds `rows`: skipped, or kept, with its hash noted
      exactly if it had to be computed. */
  predicate Decided(h: Bytes -> Hash, card: Card, rows: seq<Row>, e: FileEntry, kept: Option<FileEntry>) {
    && (kept.None? <==> Indexed(h, card, rows, e))
    && (kept.Some? ==>
          var known := if HasSizeMtime(rows, e.size, e.mtime) then Some(h(card(e.src))) else e.knownHash;
          kept.value == e.(knownHash := known))
  }

  /** In terms of the rows: an entry is skipped exactly if a row has its size, timestamp and hash, and is hashed
      ahead of its copy exactly if a row has its size and timestamp. */
  lemma DecidedMeans(h: Bytes -> Hash, card: Card, rows: seq<Row>, e: FileEntry, kept: Option<FileEntry>)
    requires Decided(h, card, rows, e, kept) && e.knownHash.None?
    ensures kept.None? <==>
              exists i :: 0 <= i < |rows| && rows[i].size == e.size && rows[i].mtime == e.mtime
                          && rows[i].hash == h(card(e.src))
    ensures kept.Some? ==>
      var seen := exists i :: 0 <= i < |rows| && rows[i].size == e.size && rows[i].mtime == e.mtime;
      kept.value == FileEntry(e.src, e.name, e.size, e.mtime, if seen then Some(h(card(e.src))) else None)
  {
  }

  lemma IndexedGrows(h: Bytes -> Hash, card: Card, rows: seq<Row>, more: seq<Row>, e: FileEntry)
    requires rows <= more && Indexed(h, card, rows, e)
    ensures Indexed(h, card, more, e)
  {
    var i :| 0 <= i < |rows| && rows[i].size == e.size && rows[i].mtime == e.mtime
             && rows[i].hash == h(card(e.src));
    assert more[i] == rows[i];
  }

  predicate Increasing(s: seq<nat>, bound: nat) {
    && (forall k :: 0 <= k < |s| ==> s[k] < bound)
    && (forall k, l :: 0 <= k < l < |s| ==> s[k] < s[l])
  }

  /** A dedup plan: `toCopy[k]` comes from `entries[origin[k]]`, and entry `i` was decided
      while the index held `views[i]`. */
  predicate IsPlan(h: Bytes -> Hash, card: Card, entries: seq<FileEntry>, views: seq<seq<Row>>,
                   origin: seq<nat>, toCopy: seq<FileEntry>) {
    && |views| == |entries| && |origin| == |toCopy|
    && Increasing(origin, |entries|)
    && (forall k :: 0 <= k < |toCopy| ==>
          Decided(h, card, views[origin[k]], entries[origin[k]], Some(toCopy[k])))
    && (forall i :: 0 <= i < |entries| && i !in origin ==> Decided(h, card, views[i], entries[i], None))
  }

  /** The same plan made in one stage: the positions of the entries that are not indexed. */
  function NotIndexed(h: Bytes -> Hash, card: Card, entries: seq<FileEntry>, rows: seq<Row>, n: nat): seq<nat>
    requires n <= |entries|
  {
    if n == 0 then []
    else
      var last := if Indexed(h, card, rows, entries[n - 1]) then [] else [n - 1];
      NotIndexed(h, card, entries, rows, n - 1) + last
  }

  lemma {:induction false} NotIndexedIs(h: Bytes -> Hash, card: Card, entries: seq<FileEntry>, rows: seq<Row>, n: nat)
    requires n <= |entries|
    ensures var s := NotIndexed(h, card, entries, rows, n);
      Increasing(s, n) && forall i :: 0 <= i < n ==> (i in s <==> !Indexed(h, card, rows, entries[i]))
  {
    if n > 0 {
      NotIndexedIs(h, card, entries, rows, n - 1);
    }
  }

  lemma {:induction false} IncreasingEqual(a: seq<nat>, b: seq<nat>, bound: nat)
    requires Increasing(a, bound) && Increasing(b, bound)
    requires forall i :: 0 <= i < bound ==> (i in a <==> i in b)
    ensures a == b
  {
    assert a != [] ==> a[0] in b;
    assert b != [] ==> b[0] in a;
    if a != [] && b != [] {
      var x, y := a[|a| - 1], b[|b| - 1];
      assert x in a && y in b;
      assert x == y;
      DropLast(a, bound);
      DropLast(b, bound);
      var a', b' := a[..|a| - 1], b[..|b| - 1];
      forall i | 0 <= i < x ensures i in a' <==> i in b' {
        assert i in a <==> i in b;
      }
      IncreasingEqual(a', b', x);
      assert a == a' + [x] && b == b' + [x];
    }
  }

  lemma DropLast(a: seq<nat>, bound: nat)
    requires Increasing(a, bound) && a != []
    ensures var x := a[|a| - 1];
      Increasing(a[..|a| - 1], x) && forall i :: i in a[..|a| - 1] <==> i in a && i != x
  {
  }

  /** With nobody else inserting, the two-stage plan keeps exactly what the simple rule keeps,
      in the same order. */
  lemma TwoStageIsSimple(h: Bytes -> Hash, card: Card, entries: seq<FileEntry>, rows: seq<Row>,
                         views: seq<seq<Row>>, origin: seq<nat>, toCopy: seq<FileEntry>)
    requires IsPlan(h, card, entries, views, origin, toCopy)
    requires forall i :: 0 <= i < |views| ==> views[i] == rows
    ensures origin == NotIndexed(h, card, entries, rows, |entries|)
  {
    NotIndexedIs(h, card, entries, rows, |entries|);
    forall i | 0 <= i < |entries|
      ensures i in origin <==> i in NotIndexed(h, card, entries, rows, |entries|)
    {
      if i in origin {
        var k :| 0 <= k < |origin| && origin[k] == i;
        assert Decided(h, card, views[origin[k]], entries[origin[k]], Some(toCopy[k]));
      }
    }
    IncreasingEqual(origin, NotIndexed(h, card, entries, rows, |entries|), |entries|);
  }

  /** Decides about one entry; other jobs may insert rows between the two queries. */
  method Decide(ctx: Context, d: Destination, j: JobId, card: Card, e: FileEntry)
    returns (ok: bool, kept: Option<FileEntry>, ghost view: seq<Row>)
    requires d.Valid() && j !in d.st.copies
    modifies ctx, d
    ensures d.Valid() && old(d.log) <= d.log && j !in d.st.copies && Steady(old(d.st), d.st, j)
    ensures ok ==> old(d.st.rows) <= view <= d.st.rows && Decided(d.h, card, view, e, kept)
    ensures d.smooth && ctx.cause.None? ==> ok
    ensures old(ctx.cause).Some? ==> ctx.cause == old(ctx.cause)
  {
    ok, kept, view := false, None, [];
    ghost var s0 := d.st;
    d.Interfere(j);
    ok := *;
    if !ok && !d.smooth {
      return;   // the query failed
    }
    view := d.st.rows;
    if !HasSizeMtime(d.st.rows, e.size, e.mtime) {
      return true, Some(e), view;
    }
    var sum := HashFile(d.h, ctx, card(e.src), d.smooth);
    ghost var s1 := d.st;
    d.Interfere(j);
    SteadyTrans(s0, s1, d.st, j);
    ok := *;
    if sum.None? || (!ok && !d.smooth) {
      return false, None, view;
    }
    ok := true;
    StillSeen(view, d.st.rows, e);
    view := d.st.rows;
    kept := if ExistsHash(d.st.rows, e.size, e.mtime, sum.value) then None else Some(e.(knownHash := sum));
  }

  lemma StillSeen(rows: seq<Row>, more: seq<Row>, e: FileEntry)
    requires rows <= more && HasSizeMtime(rows, e.size, e.mtime)
    ensures HasSizeMtime(more, e.size, e.mtime)
  {
    var i :| 0 <= i < |rows| && rows[i].size == e.size && rows[i].mtime == e.mtime;
    assert more[i] == rows[i];
  }

  /** Every view is the index at some moment between `low` and `high`. */
  predicate Between(views: seq<seq<Row>>, low: seq<Row>, high: seq<Row>) {
    forall i :: 0 <= i < |views| ==> low <= views[i] <= high
  }

  lemma BetweenExtends(views: seq<seq<Row>>, view: seq<Row>, low: seq<Row>, mid: seq<Row>, high: seq<Row>)
    requires Between(views, low, mid) && low <= mid <= view <= high
    ensures Between(views + [view], low, high)
  {
  }

  /** The plan for the first `n` entries, made since the index held `low`. */
  predicate Planned(h: Bytes -> Hash, card: Card, entries: seq<FileEntry>, n: nat, views: seq<seq<Row>>,
                    origin: seq<nat>, toCopy: seq<FileEntry>, skipped: nat, low: seq<Row>, high: seq<Row>) {
    && n <= |entries| && IsPlan(h, card, entries[..n], views, origin, toCopy)
    && skipped + |toCopy| == n && Between(views, low, high)
  }

  lemma PlannedStep(h: Bytes -> Hash, card: Card, entries: seq<FileEntry>, n: nat, views: seq<seq<Row>>,
                    origin: seq<nat>, toCopy: seq<FileEntry>, skipped: nat, low: seq<Row>, mid: seq<Row>,
                    view: seq<Row>, high: seq<Row>, kept: Option<FileEntry>)
    requires n < |entries| && Planned(h, card, entries, n, views, origin, toCopy, skipped, low, mid)
    requires low <= mid <= view <= high && Decided(h, card, view, entries[n], kept)
    ensures kept.None? ==>
              Planned(h, card, entries, n + 1, views + [view], origin, toCopy, skipped + 1, low, high)
    ensures kept.Some? ==>
              Planned(h, card, entries, n + 1, views + [view], origin + [n], toCopy + [kept.value], skipped, low, high)
  {
    assert entries[..n + 1] == entries[..n] + [entries[n]];
    PlanExtends(h, card, entries[..n], entries[n], views, view, origin, toCopy, kept);
    BetweenExtends(views, view, low, mid, high);
  }

  /** Partitions the entries into files to copy and a skipped count. A job cancelled before has
      nothing planned, unless there is nothing to plan. */
  method PlanDedup(ctx: Context, d: Destination, j: JobId, card: Card, entries: seq<FileEntry>)
    returns (ok: bool, toCopy: seq<FileEntry>, skipped: nat, origin: seq<nat>, ghost views: seq<seq<Row>>)
    requires d.Valid() && j !in d.st.copies
    modifies ctx, d
    ensures d.Valid() && old(d.log) <= d.log && j !in d.st.copies && Steady(old(d.st), d.st, j)
    ensures ok ==>
      && IsPlan(d.h, card, entries, views, origin, toCopy)
      && skipped + |toCopy| == |entries|
      && Between(views, old(d.st.rows), d.st.rows)
    ensures if entries == [] then ok else old(ctx.cause).Some? ==> !ok
    ensures d.smooth && ctx.cause.None? ==> ok
    ensures old(ctx.cause).Some? ==> ctx.cause == old(ctx.cause)
  {
    toCopy, skipped, origin, views, ok := [], 0, [], [], true;
    ghost var s0 := d.st;
    for n := 0 to |entries|
      invariant ok && d.Valid() && old(d.log) <= d.log && j !in d.st.copies && Steady(s0, d.st, j)
      invariant Planned(d.h, card, entries, n, views, origin, toCopy, skipped, s0.rows, d.st.rows)
      invariant old(ctx.cause).Some? ==> ctx.cause == old(ctx.cause) && n == 0
    {
      var stop := ctx.Cancelled();
      if stop {
        return false, [], 0, [], [];
      }
      ghost var s := d.st;
      var kept: Option<FileEntry>;
      ghost var view: seq<Row>;
      ok, kept, view := Decide(ctx, d, j, card, entries[n]);
      SteadyTrans(s0, s, d.st, j);
      if !ok {
        return false, [], 0, [], [];
      }
      PlannedStep(d.h, card, entries, n, views, origin, toCopy, skipped, s0.rows, s.rows, view, d.st.rows, kept);
      views := views + [view];
      match kept
      case None =>
        skipped := skipped + 1;
      case Some(e) =>
        toCopy, origin := toCopy + [e], origin + [n];
    }
    assert entries[..|entries|] == entries;
  }

  lemma PlanExtends(h: Bytes -> Hash, card: Card, entries: seq<FileEntry>, e: FileEntry,
                    views: seq<seq<Row>>, view: seq<Row>, origin: seq<nat>, toCopy: seq<FileEntry>,
                    kept: Option<FileEntry>)
    requires IsPlan(h, card, entries, views, origin, toCopy) && Decided(h, card, view, e, kept)
    ensures kept.None? ==> IsPlan(h, card, entries + [e], views + [view], origin, toCopy)
    ensures kept.Some? ==>
              IsPlan(h, card, entries + [e], views + [view], origin + [|entries|], toCopy + [kept.value])
  {
    var es, vs := entries + [e], views + [view];
    assert |entries| !in origin;
    if kept.Some? {
      var os := origin + [|entries|];
      assert forall i :: 0 <= i < |es| && i !in os ==> i < |entries| && i !in origin;
    }
  }
}
