/** Scanning a card: every media candidate, and none of cardpit's own artifacts. */
module Scan {
  import opened Text
  import opened Names
  import opened CopyProtocol
  import opened Dedup
  import opened JobRunner

  /** A directory tree as the walk sees it. `Unreadable`: the card was pulled. */
  datatype Node =
    | FileNode(name: string, size: nat, mtime: string)
    | DirNode(name: string, children: seq<Node>)
    | Unreadable

  const SKIPPED_DIRS := {"system volume information", "$recycle.bin", ".trashes", ".spotlight-v100"}
  const SKIPPED_FILES := {"desktop.ini", "thumbs.db", ".ds_store"}

  function Lower(c: char): char {
    if 'A' <= c <= 'Z' then c - 'A' + 'a' else c
  }

  function ToLower(s: string): (r: string)
    ensures |r| == |s|
  {
    seq(|s|, i requires 0 <= i < |s| => Lower(s[i]))
  }

  predicate Hidden(name: string) {
    name != "" && name[0] == '.'
  }

  predicate SkipDir(name: string) {
    Hidden(name) || ToLower(name) in SKIPPED_DIRS
  }

  predicate SkipFile(name: string) {
    Hidden(name) || ToLower(name) in SKIPPED_FILES || IsTmpName(ToLower(name))
  }

  // ---- what the filter means --------------------------------------------------------------

  /** `c` is the lower-case letter `d`, or the upper-case one. */
  predicate SameLetter(c: char, d: char) {
    c == d || ('A' <= c <= 'Z' && c as int + 32 == d as int)
  }

  /** `name` reads `word`, in whatever case. */
  predicate Spells(name: string, word: string) {
    |name| == |word| && forall i :: 0 <= i < |name| ==> SameLetter(name[i], word[i])
  }

  /** A hidden directory, or one of the four that operating systems put on a card. */
  predicate SystemDir(name: string) {
    || (|name| > 0 && name[0] == '.')
    || Spells(name, "system volume information") || Spells(name, "$recycle.bin")
    || Spells(name, ".trashes") || Spells(name, ".spotlight-v100")
  }

  /** A hidden file, one of the three that operating systems put there, or a tmp file of ours. */
  predicate SystemFile(name: string) {
    || (|name| > 0 && name[0] == '.')
    || Spells(name, "desktop.ini") || Spells(name, "thumbs.db") || Spells(name, ".ds_store")
    || (|name| >= 12 && Spells(name[|name| - 12..], ".cardpit-tmp"))
  }

  predicate NoUpper(word: string) {
    forall i :: 0 <= i < |word| ==> !('A' <= word[i] <= 'Z')
  }

  lemma LowerSpells(name: string, word: string)
    requires NoUpper(word)
    ensures ToLower(name) == word <==> Spells(name, word)
  {
    if ToLower(name) == word {
      forall i | 0 <= i < |name| ensures SameLetter(name[i], word[i]) {
        assert ToLower(name)[i] == Lower(name[i]);
      }
    }
    if Spells(name, word) {
      forall i | 0 <= i < |name| ensures ToLower(name)[i] == word[i] {
        assert SameLetter(name[i], word[i]);
      }
    }
  }

  /** The filter skips exactly these directories. */
  lemma SkipDirIs(name: string)
    ensures SkipDir(name) <==> SystemDir(name)
  {
    LowerSpells(name, "system volume information");
    LowerSpells(name, "$recycle.bin");
    LowerSpells(name, ".trashes");
    LowerSpells(name, ".spotlight-v100");
  }

  /** And exactly these files. */
  lemma SkipFileIs(name: string)
    ensures SkipFile(name) <==> SystemFile(name)
  {
    LowerSpells(name, "desktop.ini");
    LowerSpells(name, "thumbs.db");
    LowerSpells(name, ".ds_store");
    if |name| >= 12 {
      assert ToLower(name)[|name| - 12..] == ToLower(name[|name| - 12..]);
      LowerSpells(name[|name| - 12..], ".cardpit-tmp");
    }
  }

  /** The filter compares lower-case names, and still catches every tmp name. */
  lemma TmpNamesAreSkipped(name: string)
    requires IsTmpName(name)
    ensures SkipFile(name)
  {
    var l, at := ToLower(name), |name| - |TMP_SUFFIX|;
    forall k | at <= k < |l| ensures l[k] == TMP_SUFFIX[k - at] {
      assert name[k] == name[at..][k - at] == TMP_SUFFIX[k - at];
    }
    assert l[at..] == TMP_SUFFIX;
  }

  function Join(dir: string, name: string): string {
    dir + "/" + name
  }

  function EntryOf(dir: string, f: Node): FileEntry
    requires f.FileNode?
  {
    FileEntry(Join(dir, f.name), f.name, f.size, f.mtime, None)
  }

  /** The entries below `dir`, in walk order; `None` if the walk hit an error. */
  function Entries(dir: string, nodes: seq<Node>): Option<seq<FileEntry>>
    decreases nodes
  {
    if nodes == [] then Some([])
    else
      var here := match nodes[0]
        case FileNode(name, _, _) => Some(if SkipFile(name) then [] else [EntryOf(dir, nodes[0])])
        case DirNode(name, children) => if SkipDir(name) then Some([]) else Entries(Join(dir, name), children)
        case Unreadable => None;
      var rest := Entries(dir, nodes[1..]);
      if here.Some? && rest.Some? then Some(here.value + rest.value) else None
  }

  function Onto(out: seq<FileEntry>, more: Option<seq<FileEntry>>): Option<seq<FileEntry>> {
    if more.None? then None else Some(out + more.value)
  }

  lemma OntoStep(out: seq<FileEntry>, dir: string, nodes: seq<Node>, here: seq<FileEntry>)
    requires nodes != []
    requires Entries(dir, nodes[1..]).Some? ==> Entries(dir, nodes) == Some(here + Entries(dir, nodes[1..]).value)
    requires Entries(dir, nodes[1..]).None? ==> Entries(dir, nodes).None?
    ensures Onto(out, Entries(dir, nodes)) == Onto(out + here, Entries(dir, nodes[1..]))
  {
    var rest := Entries(dir, nodes[1..]);
    if rest.Some? {
      assert out + (here + rest.value) == (out + here) + rest.value;
    }
  }

  /** The walk, appending to `out`. It stops at the first error. */
  method ScanSource(dir: string, nodes: seq<Node>, out: seq<FileEntry>) returns (r: Option<seq<FileEntry>>)
    ensures r == Onto(out, Entries(dir, nodes))
    decreases nodes
  {
    r := Some(out);
    assert nodes[0..] == nodes;
    for k := 0 to |nodes|
      invariant r.Some? && Onto(r.value, Entries(dir, nodes[k..])) == Onto(out, Entries(dir, nodes))
    {
      assert nodes[k..][0] == nodes[k] && nodes[k..][1..] == nodes[k + 1..];
      ghost var found: seq<FileEntry> := [];
      var before := r.value;
      match nodes[k] {
        case FileNode(name, size, mtime) =>
          if !SkipFile(name) {
            found := [EntryOf(dir, nodes[k])];
            r := Some(before + [EntryOf(dir, nodes[k])]);
          }
        case DirNode(name, children) =>
          if !SkipDir(name) {
            r := ScanSource(Join(dir, name), children, before);
            if r.None? {
              return;
            }
            found := Entries(Join(dir, name), children).value;
          }
        case Unreadable =>
          return None;
      }
      assert before + [] == before;
      OntoStep(before, dir, nodes[k..], found);
    }
    assert r.value + [] == r.value;
  }

  /** The card's files are as long as the directory says. */
  predicate Honest(card: Card, dir: string, nodes: seq<Node>)
    decreases nodes
  {
    if nodes == [] then true
    else
      && (match nodes[0]
          case FileNode(name, size, _) => |card(Join(dir, name))| == size
          case DirNode(name, children) => Honest(card, Join(dir, name), children)
          case Unreadable => true)
      && Honest(card, dir, nodes[1..])
  }

  /** A finished scan is what a run asks for; in particular no entry has a tmp name. */
  lemma {:induction false} ScanIsScanned(card: Card, dir: string, nodes: seq<Node>)
    requires Honest(card, dir, nodes) && Entries(dir, nodes).Some?
    ensures Scanned(card, Entries(dir, nodes).value)
    decreases nodes
  {
    if nodes != [] {
      ScanIsScanned(card, dir, nodes[1..]);
      match nodes[0]
      case FileNode(name, _, _) =>
        if IsTmpName(name) {
          TmpNamesAreSkipped(name);
        }
      case DirNode(name, children) =>
        if !SkipDir(name) {
          ScanIsScanned(card, Join(dir, name), children);
        }
      case Unreadable =>
    }
  }

  // ---- what a scan finds ------------------------------------------------------------------

  /** `trail` leads through no system directory of `dir` to a file that is no system file, and `e` has
      that file's path, name, size and timestamp. */
  predicate LeadsTo(dir: string, nodes: seq<Node>, trail: seq<nat>, e: FileEntry)
    decreases trail
  {
    && trail != [] && trail[0] < |nodes|
    && match nodes[trail[0]]
       case FileNode(name, size, mtime) =>
         |trail| == 1 && !SystemFile(name) && e == FileEntry(dir + "/" + name, name, size, mtime, None)
       case DirNode(name, children) => !SystemDir(name) && LeadsTo(dir + "/" + name, children, trail[1..], e)
       case Unreadable => false
  }

  /** A finished scan overlooks no such file. */
  lemma {:induction false} ScanFindsAll(dir: string, nodes: seq<Node>, trail: seq<nat>, e: FileEntry)
    requires Entries(dir, nodes).Some? && LeadsTo(dir, nodes, trail, e)
    ensures e in Entries(dir, nodes).value
    decreases nodes, trail
  {
    if trail[0] == 0 {
      match nodes[0]
      case DirNode(name, children) =>
        SkipDirIs(name);
        ScanFindsAll(Join(dir, name), children, trail[1..], e);
      case FileNode(name, _, _) => SkipFileIs(name);
      case Unreadable =>
    } else {
      var shifted := [trail[0] - 1] + trail[1..];
      assert shifted[1..] == trail[1..] && nodes[1..][shifted[0]] == nodes[trail[0]];
      ScanFindsAll(dir, nodes[1..], shifted, e);
    }
  }

  /** `a` comes before `b` in the order of the walk. */
  predicate Before(a: seq<nat>, b: seq<nat>) {
    a != [] && b != [] && (a[0] < b[0] || (a[0] == b[0] && Before(a[1..], b[1..])))
  }

  /** Each entry of `es` is such a file, and they come in the order of the walk, hence each once. */
  predicate Walked(dir: string, nodes: seq<Node>, trails: seq<seq<nat>>, es: seq<FileEntry>) {
    && |trails| == |es|
    && (forall i :: 0 <= i < |es| ==> LeadsTo(dir, nodes, trails[i], es[i]))
    && (forall i, k :: 0 <= i < k < |es| ==> Before(trails[i], trails[k]))
  }

  /** The trails below the first node. */
  function Below(trails: seq<seq<nat>>): (r: seq<seq<nat>>)
    ensures |r| == |trails| && forall i :: 0 <= i < |r| ==> r[i] == [0] + trails[i]
  {
    seq(|trails|, i requires 0 <= i < |trails| => [0] + trails[i])
  }

  function Later(trail: seq<nat>): seq<nat> {
    if trail == [] then [] else [trail[0] + 1] + trail[1..]
  }

  /** The trails past the first node. */
  function Past(trails: seq<seq<nat>>): (r: seq<seq<nat>>)
    ensures |r| == |trails| && forall i :: 0 <= i < |r| ==> r[i] == Later(trails[i])
  {
    seq(|trails|, i requires 0 <= i < |trails| => Later(trails[i]))
  }

  lemma BelowWalked(dir: string, nodes: seq<Node>, trails: seq<seq<nat>>, es: seq<FileEntry>)
    requires nodes != [] && nodes[0].DirNode? && !SystemDir(nodes[0].name)
    requires Walked(dir + "/" + nodes[0].name, nodes[0].children, trails, es)
    ensures Walked(dir, nodes, Below(trails), es)
  {
    forall i | 0 <= i < |es| ensures LeadsTo(dir, nodes, Below(trails)[i], es[i]) {
      assert Below(trails)[i][1..] == trails[i];
    }
    forall i, k | 0 <= i < k < |es| ensures Before(Below(trails)[i], Below(trails)[k]) {
      assert Below(trails)[i][1..] == trails[i] && Below(trails)[k][1..] == trails[k];
    }
  }

  lemma PastWalked(dir: string, nodes: seq<Node>, trails: seq<seq<nat>>, es: seq<FileEntry>)
    requires nodes != [] && Walked(dir, nodes[1..], trails, es)
    ensures Walked(dir, nodes, Past(trails), es)
  {
    forall i | 0 <= i < |es| ensures LeadsTo(dir, nodes, Past(trails)[i], es[i]) {
      assert LeadsTo(dir, nodes[1..], trails[i], es[i]);
      assert Later(trails[i])[1..] == trails[i][1..] && nodes[1..][trails[i][0]] == nodes[trails[i][0] + 1];
    }
    forall i, k | 0 <= i < k < |es| ensures Before(Past(trails)[i], Past(trails)[k]) {
      assert Before(trails[i], trails[k]);
      assert Later(trails[i])[1..] == trails[i][1..] && Later(trails[k])[1..] == trails[k][1..];
    }
  }

  lemma WalkedJoins(dir: string, nodes: seq<Node>, heads: seq<seq<nat>>, here: seq<FileEntry>,
                    trails: seq<seq<nat>>, rest: seq<FileEntry>)
    requires Walked(dir, nodes, heads, here) && Walked(dir, nodes, trails, rest)
    requires forall i :: 0 <= i < |heads| ==> heads[i] != [] && heads[i][0] == 0
    requires forall i :: 0 <= i < |trails| ==> trails[i] != [] && trails[i][0] > 0
    ensures Walked(dir, nodes, heads + trails, here + rest)
  {
  }

  /** A finished scan lists nothing else, and each file once, in the order of the walk. */
  lemma {:induction false} ScanFindsOnly(dir: string, nodes: seq<Node>) returns (trails: seq<seq<nat>>)
    requires Entries(dir, nodes).Some?
    ensures Walked(dir, nodes, trails, Entries(dir, nodes).value)
    decreases nodes
  {
    trails := [];
    if nodes != [] {
      var rest := ScanFindsOnly(dir, nodes[1..]);
      PastWalked(dir, nodes, rest, Entries(dir, nodes[1..]).value);
      var heads: seq<seq<nat>> := [];
      var here: seq<FileEntry> := [];
      match nodes[0] {
        case FileNode(name, size, mtime) =>
          SkipFileIs(name);
          if !SkipFile(name) {
            heads, here := [[0]], [EntryOf(dir, nodes[0])];
          }
        case DirNode(name, children) =>
          SkipDirIs(name);
          if !SkipDir(name) {
            var below := ScanFindsOnly(Join(dir, name), children);
            here := Entries(Join(dir, name), children).value;
            BelowWalked(dir, nodes, below, here);
            heads := Below(below);
          }
        case Unreadable =>
      }
      forall i | 0 <= i < |rest| ensures Past(rest)[i] != [] && Past(rest)[i][0] > 0 {
        assert LeadsTo(dir, nodes[1..], rest[i], Entries(dir, nodes[1..]).value[i]);
      }
      WalkedJoins(dir, nodes, heads, here, Past(rest), Entries(dir, nodes[1..]).value);
      trails := heads + Past(rest);
    }
  }

  /** `trail` leads through no system directory to something that cannot be read. */
  predicate Fails(nodes: seq<Node>, trail: seq<nat>)
    decreases trail
  {
    && trail != [] && trail[0] < |nodes|
    && match nodes[trail[0]]
       case FileNode(_, _, _) => false
       case DirNode(name, children) => !SystemDir(name) && Fails(children, trail[1..])
       case Unreadable => true
  }

  lemma {:induction false} FailureFound(dir: string, nodes: seq<Node>) returns (trail: seq<nat>)
    requires Entries(dir, nodes).None?
    ensures Fails(nodes, trail)
    decreases nodes
  {
    if Entries(dir, nodes[1..]).None? {
      var later := FailureFound(dir, nodes[1..]);
      trail := Later(later);
      assert trail[1..] == later[1..] && nodes[1..][later[0]] == nodes[trail[0]];
    } else {
      trail := [0];
      if nodes[0].DirNode? {
        SkipDirIs(nodes[0].name);
        var below := FailureFound(Join(dir, nodes[0].name), nodes[0].children);
        trail := [0] + below;
        assert trail[1..] == below;
      }
    }
  }

  lemma {:induction false} FailureCounts(dir: string, nodes: seq<Node>, trail: seq<nat>)
    requires Fails(nodes, trail)
    ensures Entries(dir, nodes).None?
    decreases nodes, trail
  {
    if trail[0] > 0 {
      var shifted := [trail[0] - 1] + trail[1..];
      assert shifted[1..] == trail[1..] && nodes[1..][shifted[0]] == nodes[trail[0]];
      FailureCounts(dir, nodes[1..], shifted);
    } else if nodes[0].DirNode? {
      SkipDirIs(nodes[0].name);
      FailureCounts(Join(dir, nodes[0].name), nodes[0].children, trail[1..]);
    }
  }

  /** The walk meets something that cannot be read. */
  ghost predicate MeetsFailure(nodes: seq<Node>) {
    exists trail: seq<nat> :: Fails(nodes, trail)
  }

  /** A scan fails exactly if the walk meets something that cannot be read. */
  lemma ScanFailsExactlyWhen(dir: string, nodes: seq<Node>)
    ensures Entries(dir, nodes).None? <==> MeetsFailure(nodes)
  {
    if Entries(dir, nodes).None? {
      var trail := FailureFound(dir, nodes);
      assert Fails(nodes, trail);
    }
    if MeetsFailure(nodes) {
      var trail: seq<nat> :| Fails(nodes, trail);
      FailureCounts(dir, nodes, trail);
    }
  }
}
