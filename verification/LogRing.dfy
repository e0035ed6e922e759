/** The in-memory ring of recent log records behind the diagnostics page. */
module LogRing {

  datatype Record = Record(time: int, level: string, msg: string)

  /** slog's numeric levels. */
  function LevelValue(name: string): int {
    match name
    case "DEBUG" => -4
    case "WARN" => 4
    case "ERROR" => 8
    case _ => 0
  }

  /** Debug, info, warn, error, in this order; any other name counts as info. */
  lemma LevelsInOrder(name: string)
    ensures LevelValue("DEBUG") < LevelValue("INFO") < LevelValue("WARN") < LevelValue("ERROR")
    ensures name !in {"DEBUG", "WARN", "ERROR"} ==> LevelValue(name) == LevelValue("INFO")
  {
  }

  /** The last `n` records of `h`, or all of them. */
  function Last(h: seq<Record>, n: nat): seq<Record> {
    if |h| <= n then h else h[|h| - n..]
  }

  /** The records of at least level `min`, in order. */
  function AtLeast(h: seq<Record>, min: int): seq<Record> {
    if h == [] then []
    else
      var r := h[|h| - 1];
      AtLeast(h[..|h| - 1], min) + (if LevelValue(r.level) < min then [] else [r])
  }

  /** These are the records of at least that level, each once, in order. */
  lemma {:induction false} AtLeastIs(h: seq<Record>, min: int) returns (at: seq<nat>)
    ensures |at| == |AtLeast(h, min)|
    ensures forall k :: 0 <= k < |at| ==>
              at[k] < |h| && AtLeast(h, min)[k] == h[at[k]] && LevelValue(h[at[k]].level) >= min
    ensures forall k, l :: 0 <= k < l < |at| ==> at[k] < at[l]
    ensures forall i :: 0 <= i < |h| && LevelValue(h[i].level) >= min ==> i in at
  {
    at := [];
    if h != [] {
      var n := |h| - 1;
      at := AtLeastIs(h[..n], min);
      if LevelValue(h[n].level) >= min {
        at := at + [n];
      }
    }
  }

  /** What the diagnostics page is promised: of the last `capacity` records ever logged, the
      ones of at least level `min`, and of those the last `limit` (all if `limit <= 0`). */
  function Recent(h: seq<Record>, capacity: nat, limit: int, min: int): seq<Record> {
    var shown := AtLeast(Last(h, capacity), min);
    if limit > 0 then Last(shown, limit) else shown
  }

  lemma ModDistinct(i: nat, k: nat, n: nat)
    requires 0 < k < n
    ensures i % n != (i + k) % n
  {
    var q, r := i / n, i % n;
    assert i + k == q * n + (r + k);
    if r + k < n {
      ModIs(i + k, q, r + k, n);
    } else {
      assert i + k == (q + 1) * n + (r + k - n);
      ModIs(i + k, q + 1, r + k - n, n);
    }
  }

  lemma ModIs(x: nat, q: nat, r: nat, n: nat)
    requires n > 0 && r < n && x == q * n + r
    ensures x % n == r
  {
    var d := x / n - q;
    assert x == (x / n) * n + x % n;
    assert d * n == r - x % n;
    assert d >= 1 ==> d * n >= n;
    assert d <= -1 ==> d * n <= -1 * n;
  }

  lemma TimesSum(a: nat, b: nat, n: nat)
    ensures (a + b) * n == a * n + b * n
  {
  }

  lemma ModShift(x: nat, i: nat, n: nat)
    requires n > 0
    ensures (x % n + i) % n == (x + i) % n
  {
    var s := x % n + i;
    assert x == (x / n) * n + x % n;
    assert s == (s / n) * n + s % n;
    TimesSum(x / n, s / n, n);
    ModIs(x + i, x / n + s / n, s % n, n);
  }

  class Ring {
    var buf: array<Record>
    var next: nat
    var full: bool
    ghost var history: seq<Record>   // everything ever appended

    /** Slot `i % capacity` holds record `i`, for the records still retained. */
    ghost predicate Valid()
      reads this, buf
    {
      && buf.Length >= 1
      && next == |history| % buf.Length
      && (full <==> |history| >= buf.Length)
      && forall i :: 0 <= i < |history| && |history| - buf.Length <= i ==> buf[i % buf.Length] == history[i]
    }

    constructor (capacity: int)
      ensures Valid() && history == [] && fresh(buf)
      ensures buf.Length == if capacity < 1 then 1 else capacity
    {
      buf := new Record[if capacity < 1 then 1 else capacity];
      next, full, history := 0, false, [];
    }

    method Append(rec: Record)
      requires Valid()
      modifies this, buf
      ensures Valid() && history == old(history) + [rec] && buf == old(buf)
    {
      ghost var n, c := |history|, buf.Length;
      buf[next] := rec;
      next := (next + 1) % buf.Length;
      if next == 0 {
        full := true;
      }
      history := history + [rec];
      ModShift(n, 1, c);
      forall i | 0 <= i < |history| && |history| - c <= i ensures buf[i % c] == history[i] {
        if i < n {
          ModDistinct(i, n - i, c);
        }
      }
      if n + 1 < c {
        ModIs(n + 1, 0, n + 1, c);
      } else if n + 1 == c {
        ModIs(n + 1, 1, 0, c);
      }
    }

    method Snapshot(limit: int, min: int) returns (r: seq<Record>)
      requires Valid()
      ensures r == Recent(history, buf.Length, limit, min)
    {
      var n := if full then buf.Length else next;
      ghost var window := Last(history, buf.Length);
      if !full {
        ModIs(|history|, 0, |history|, buf.Length);
      }
      assert |window| == n;
      r := [];
      for i := 0 to n
        invariant r == AtLeast(window[..i], min)
      {
        var idx := if full then (next + i) % buf.Length else i;
        SlotOf(i);
        var rec := buf[idx];
        assert rec == window[i];
        assert window[..i + 1][..i] == window[..i];
        if LevelValue(rec.level) >= min {
          r := r + [rec];
        }
      }
      assert window[..n] == window;
      if limit > 0 && |r| > limit {
        r := r[|r| - limit..];
      }
    }

    lemma SlotOf(i: nat)
      requires Valid() && i < (if full then buf.Length else next)
      ensures var idx := if full then (next + i) % buf.Length else i;
        idx < buf.Length && i < |Last(history, buf.Length)| && buf[idx] == Last(history, buf.Length)[i]
    {
      var n, c := |history|, buf.Length;
      if full {
        var at := n - c + i;
        ModShift(n, i, c);
        assert n + i == at + c;
        ModShift(c, at, c);
        ModIs(c, 1, 0, c);
        assert buf[at % c] == history[at];
      } else {
        ModIs(n, 0, n, c);
        ModIs(i, 0, i, c);
        assert buf[i % c] == history[i];
      }
    }
  }
}
