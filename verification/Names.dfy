/** File names on the destination: the temporary suffix and the choice of a free final name. */
module Names {
  import opened Text

  const TMP_SUFFIX := ".cardpit-tmp"

  predicate IsTmpName(name: string) {
    HasSuffix(name, TMP_SUFFIX)
  }

  /** Name of the temporary file for the copy that drew sequence number `n`. */
  function TmpName(name: string, n: nat): (t: string)
    ensures IsTmpName(t)
  {
    var t := name + "." + Decimal(n) + TMP_SUFFIX;
    assert t[|t| - |TMP_SUFFIX|..] == TMP_SUFFIX;
    t
  }

  /** Index of the last occurrence of '.' in `s`, or -1. */
  function LastDot(s: string): (r: int)
    ensures -1 <= r < |s|
    ensures r >= 0 ==> s[r] == '.'
    ensures forall i :: r < i < |s| ==> s[i] != '.'
  {
    if s == "" then -1
    else if s[|s| - 1] == '.' then |s| - 1
    else LastDot(s[..|s| - 1])
  }

  lemma LastDotUnique(s: string, r: int)
    requires 0 <= r < |s| && s[r] == '.'
    requires forall i :: r < i < |s| ==> s[i] != '.'
    ensures LastDot(s) == r
  {
  }

  predicate NoDot(d: string) {
    forall i :: 0 <= i < |d| ==> d[i] != '.'
  }

  /** If what follows the '.' has none, the '.' is the last one, so a name splits there in one way. */
  lemma DotNotLater(a: string, d: string, b: string, e: string)
    requires a + "." + d == b + "." + e && NoDot(d)
    ensures |b| <= |a|
  {
    var s := a + "." + d;
    assert s[|b|] == (b + "." + e)[|b|] == '.';
  }

  lemma SplitAtDot(a: string, d: string, b: string, e: string)
    requires a + "." + d == b + "." + e && NoDot(d) && NoDot(e)
    ensures a == b && d == e
  {
    DotNotLater(a, d, b, e);
    DotNotLater(b, e, a, d);
    Front(a + ".", d);
    Front(b + ".", e);
    Front(a, ".");
    Front(b, ".");
  }

  /** Two copies with different sequence numbers never share a temporary name,
      whatever the names of the files being copied. */
  lemma TmpNameInjective(a: string, m: nat, b: string, n: nat)
    requires TmpName(a, m) == TmpName(b, n)
    ensures a == b && m == n
  {
    Front(a + "." + Decimal(m), TMP_SUFFIX);
    Front(b + "." + Decimal(n), TMP_SUFFIX);
    SplitAtDot(a, Decimal(m), b, Decimal(n));
    DecimalInjective(m, n);
  }

  function Ext(name: string): string {
    var d := LastDot(name);
    if d < 0 then "" else name[d..]
  }

  function Stem(name: string): string
    ensures Stem(name) + Ext(name) == name
  {
    name[..|name| - |Ext(name)|]
  }

  /** The names tried for `name`: itself, then "stem (1)ext", "stem (2)ext", ... */
  function Candidate(name: string, i: nat): string {
    if i == 0 then name else Stem(name) + " (" + Decimal(i) + ")" + Ext(name)
  }

  /** The extension is what follows the last dot, with it; there is none without a dot. */
  lemma ExtIs(name: string)
    ensures Stem(name) + Ext(name) == name
    ensures if NoDot(name) then Ext(name) == "" else Ext(name) != "" && Ext(name)[0] == '.' && NoDot(Ext(name)[1..])
  {
    var d := LastDot(name);
    if d >= 0 {
      forall i | 0 <= i < |Ext(name)[1..]| ensures Ext(name)[1..][i] != '.' {
        assert Ext(name)[1..][i] == name[d + 1 + i];
      }
    }
  }

  /** A further name for the file is its own with its number, in parentheses, before the extension. */
  lemma CandidateIs(name: string, i: nat) returns (stem: string, number: string, ext: string)
    ensures name == stem + ext
    ensures if NoDot(name) then ext == "" else ext != "" && ext[0] == '.' && NoDot(ext[1..])
    ensures Value(number) == i
    ensures Candidate(name, i) == if i == 0 then name else stem + " (" + number + ")" + ext
  {
    stem, number, ext := Stem(name), Decimal(i), Ext(name);
    ExtIs(name);
    DecimalValue(i);
  }

  lemma CandidateSpelled(name: string, i: nat)
    requires i > 0
    ensures Candidate(name, i) == (Stem(name) + " (") + Decimal(i) + (")" + Ext(name))
  {
  }

  lemma CandidatesDistinct(name: string, i: nat, j: nat)
    requires i != j
    ensures Candidate(name, i) != Candidate(name, j)
  {
    var before, after := Stem(name) + " (", ")" + Ext(name);
    if i > 0 {
      CandidateSpelled(name, i);
      Middle(before, Decimal(i), after);
    }
    if j > 0 {
      CandidateSpelled(name, j);
      Middle(before, Decimal(j), after);
    }
    assert |name| == |Stem(name)| + |Ext(name)|;
    if Candidate(name, i) == Candidate(name, j) && i > 0 && j > 0 {
      assert Decimal(i) == Decimal(j);
      DecimalInjective(i, j);
    }
  }

  lemma TmpNameByExt(s: string)
    ensures IsTmpName(s) <==> Ext(s) == TMP_SUFFIX
  {
    if IsTmpName(s) {
      var at := |s| - |TMP_SUFFIX|;
      forall k | at <= k < |s| ensures s[k] == TMP_SUFFIX[k - at] {
        assert s[k] == s[at..][k - at];
      }
      LastDotUnique(s, at);
    }
  }

  lemma NumberedHasNoDot(name: string, i: nat)
    requires i > 0 && Ext(name) == ""
    ensures LastDot(Candidate(name, i)) == -1
  {
    var c, d := Candidate(name, i), Decimal(i);
    assert Stem(name) == name && c == name + " (" + d + ")";
    forall k | 0 <= k < |c| ensures c[k] != '.' {
      if |name| + 2 <= k < |c| - 1 {
        assert c[k] == d[k - |name| - 2];
      }
    }
  }

  lemma CandidateKeepsExt(name: string, i: nat)
    ensures Ext(Candidate(name, i)) == Ext(name)
  {
    var c, ext := Candidate(name, i), Ext(name);
    if i > 0 {
      if ext != "" {
        var at := |c| - |ext|;
        var front := Stem(name) + " (" + Decimal(i) + ")";
        assert c == front + ext && c[at..] == ext;
        forall k | at <= k < |c| ensures c[k] == ext[k - at] {
        }
        LastDotUnique(c, at);
      } else {
        NumberedHasNoDot(name, i);
      }
    }
  }

  /** Numbering a name neither makes it a temporary name nor stops it being one. */
  lemma CandidateTmp(name: string, i: nat)
    ensures IsTmpName(Candidate(name, i)) <==> IsTmpName(name)
  {
    TmpNameByExt(name);
    TmpNameByExt(Candidate(name, i));
    CandidateKeepsExt(name, i);
  }

  /** `Candidate(name, k)` is the first candidate not in `taken`. */
  predicate FirstFree(taken: set<string>, name: string, k: nat) {
    && Candidate(name, k) !in taken
    && forall i :: 0 <= i < k ==> Candidate(name, i) in taken
  }

  /** The candidates are pairwise distinct, so no set takes more of them than it has members. */
  lemma {:induction false} Pigeonhole(taken: set<string>, name: string, k: nat)
    requires forall i :: 0 <= i < k ==> Candidate(name, i) in taken
    ensures k <= |taken|
  {
    if k > 0 {
      var last := Candidate(name, k - 1);
      forall i | 0 <= i < k - 1 ensures Candidate(name, i) in taken - {last} {
        CandidatesDistinct(name, i, k - 1);
      }
      Pigeonhole(taken - {last}, name, k - 1);
    }
  }

  /** Returns the first free candidate, after at most |taken| collisions. */
  method PickFreeName(taken: set<string>, name: string) returns (free: string, k: nat)
    ensures free == Candidate(name, k) && FirstFree(taken, name, k)
    ensures k <= |taken|
    ensures IsTmpName(free) <==> IsTmpName(name)
  {
    assert Candidate(name, 0) == name;
    if name !in taken {
      return name, 0;
    }
    k := 1;
    free := Candidate(name, 1);
    while free in taken
      invariant free == Candidate(name, k)
      invariant forall i :: 0 <= i < k ==> Candidate(name, i) in taken
      decreases |taken| + 1 - k
    {
      Pigeonhole(taken, name, k + 1);
      k := k + 1;
      free := Candidate(name, k);
    }
    Pigeonhole(taken, name, k);
    CandidateTmp(name, k);
  }
}
