/** What `collect` returns, and why neither the file system nor the platform can change it. */
module CollectProofs {
  import opened Sequences
  import opened Bits
  import opened Stamp
  import opened Collect

  // ----- Which files are selected -----

  /** There is a file at `comps` below this node, whatever its name and wherever it is. */
  ghost predicate HasFile(node: Node, comps: seq<Name>)
    decreases |comps|
  {
    if comps == [] then node.File?
    else node.Dir? && exists i :: 0 <= i < |node.entries| && Leads(node.entries[i], comps)
  }

  ghost predicate Leads(e: DirEntry, comps: seq<Name>)
    requires comps != []
    decreases |comps|, 0
  {
    e.name == comps[0] && HasFile(e.node, comps[1..])
  }

  ghost predicate EndsIn(name: Name, suffix: Name) {
    |suffix| <= |name| && name[|name| - |suffix|..] == suffix
  }

  /** Some stem followed by `.rs`, `.toml` or `.lock`, byte by byte. */
  ghost predicate SourceName(name: Name) {
    || EndsIn(name, [46, 114, 115])
    || EndsIn(name, [46, 116, 111, 109, 108])
    || EndsIn(name, [46, 108, 111, 99, 107])
  }

  /** `target`, or below the root anything that starts with a dot. */
  ghost predicate SkippedName(name: Name, isRoot: bool) {
    name == [116, 97, 114, 103, 101, 116] || (!isRoot && 0 < |name| && name[0] == 46)
  }

  /** An extension is the last dot and what follows it. */
  lemma {:induction false} ExtOf(stem: Name, rest: Name)
    requires forall i :: 0 <= i < |rest| ==> rest[i] != 46
    ensures Ext(stem + [46] + rest) == [46] + rest
    decreases |rest|
  {
    var name := stem + [46] + rest;
    if rest == [] {
      assert Last(name) == 46;
    } else {
      ExtOf(stem, Init(rest));
      assert Init(name) == stem + [46] + Init(rest);
    }
  }

  lemma {:induction false} ExtEnds(name: Name)
    ensures EndsIn(name, Ext(name))
    decreases |name|
  {
    if name != [] && Last(name) != DOT {
      ExtEnds(Init(name));
      var e := Ext(Init(name));
      if e != [] {
        assert name[|name| - |e| - 1..] == Init(name)[|name| - 1 - |e|..] + [Last(name)];
      }
    }
  }

  lemma EndsInHasExt(name: Name, rest: Name)
    requires EndsIn(name, [46] + rest) && forall i :: 0 <= i < |rest| ==> rest[i] != 46
    ensures Ext(name) == [46] + rest
  {
    var stem := name[..|name| - |rest| - 1];
    assert name == stem + [46] + rest;
    ExtOf(stem, rest);
  }

  lemma AllowedIff(name: Name)
    ensures Allowed(name) <==> SourceName(name)
  {
    assert Text(".rs") == [46, 114, 115] == [46] + [114, 115];
    assert Text(".toml") == [46, 116, 111, 109, 108] == [46] + [116, 111, 109, 108];
    assert Text(".lock") == [46, 108, 111, 99, 107] == [46] + [108, 111, 99, 107];
    ExtEnds(name);
    if EndsIn(name, [46, 114, 115]) { EndsInHasExt(name, [114, 115]); }
    if EndsIn(name, [46, 116, 111, 109, 108]) { EndsInHasExt(name, [116, 111, 109, 108]); }
    if EndsIn(name, [46, 108, 111, 99, 107]) { EndsInHasExt(name, [108, 111, 99, 107]); }
  }

  lemma PrunedIff(name: Name, isRoot: bool)
    ensures Pruned(name, isRoot) <==> SkippedName(name, isRoot)
  {
    assert Text("target") == [116, 97, 114, 103, 101, 116];
  }

  /** The name of a source is what follows its last slash. */
  lemma {:induction false} BaseFollowsSlash(p: Path)
    ensures var b := Base(p);
            && |b| <= |p| && p[|p| - |b|..] == b && (forall i :: 0 <= i < |b| ==> b[i] != 47)
            && (|b| < |p| ==> p[|p| - |b| - 1] == 47)
    decreases |p|
  {
    if p != [] && Last(p) != SLASH {
      BaseFollowsSlash(Init(p));
      var b := Base(Init(p));
      assert p[|p| - |b| - 1..] == Init(p)[|p| - 1 - |b|..] + [Last(p)];
    }
  }

  lemma {:induction false} BaseIsTail(dir: Path, tail: Name)
    requires forall i :: 0 <= i < |tail| ==> tail[i] != 47
    ensures Base(dir + [47] + tail) == tail
    decreases |tail|
  {
    var p := dir + [47] + tail;
    if tail == [] {
      assert Last(p) == 47;
    } else {
      BaseIsTail(dir, Init(tail));
      assert Init(p) == dir + [47] + Init(tail);
    }
  }

  /** The file at `comps` below a directory called `name` has an allowed extension, and no directory on
      the way to it is pruned. */
  ghost predicate Kept(name: Name, isRoot: bool, comps: seq<Name>) {
    var names := [name] + comps;
    && SourceName(Last(names))
    && forall i :: 0 <= i < |comps| ==> !SkippedName(names[i], isRoot && i == 0)
  }

  function Join(sep: byte, path: Path, comps: seq<Name>): Path
    decreases |comps|
  {
    if comps == [] then path else Join(sep, path + [sep] + comps[0], comps[1..])
  }

  /** `comps` below the source `src` is a file that belongs in the fingerprint. */
  ghost predicate Selected(disk: map<Path, Node>, src: Path, comps: seq<Name>) {
    src in disk && HasFile(disk[src], comps) && Kept(Base(src), true, comps)
  }

  lemma KeptBelow(name: Name, isRoot: bool, comps: seq<Name>)
    requires comps != []
    ensures Kept(name, isRoot, comps) <==> !SkippedName(name, isRoot) && Kept(comps[0], false, comps[1..])
  {
    var names, below := [name] + comps, [comps[0]] + comps[1..];
    assert below == comps && Last(names) == Last(below);
    assert names[0] == name;
    assert forall i :: 0 <= i < |comps| - 1 ==> below[i] == names[i + 1];
    if Kept(name, isRoot, comps) {
      forall i | 0 <= i < |comps| - 1 ensures !SkippedName(below[i], false) {
        assert !SkippedName(names[i + 1], isRoot && i + 1 == 0);
      }
      assert !SkippedName(names[0], isRoot && 0 == 0);
    }
    if !SkippedName(name, isRoot) && Kept(comps[0], false, comps[1..]) {
      forall i | 0 <= i < |comps| ensures !SkippedName(names[i], isRoot && i == 0) {
        if i > 0 {
          assert !SkippedName(below[i - 1], false && i - 1 == 0);
        }
      }
    }
  }

  /** Everything a walk appends is a selected file. */
  lemma {:induction false} WalkSound(sep: byte, path: Path, name: Name, isRoot: bool, node: Node, p: Path)
    returns (comps: seq<Name>)
    requires p in Walk(sep, path, name, isRoot, node)
    ensures HasFile(node, comps) && Kept(name, isRoot, comps) && p == ToSlash(sep, Join(sep, path, comps))
    decreases node, 1
  {
    match node
    case File =>
      comps := [];
      AllowedIff(name);
      assert Last([name] + comps) == name;
    case Dir(entries) =>
      var i, below := WalkAllSound(sep, path, entries, p);
      comps := [entries[i].name] + below;
      assert comps[1..] == below;
      assert Leads(entries[i], comps);
      PrunedIff(name, isRoot);
      KeptBelow(name, isRoot, comps);
  }

  lemma {:induction false} WalkAllSound(sep: byte, path: Path, entries: seq<DirEntry>, p: Path)
    returns (i: nat, comps: seq<Name>)
    requires p in WalkAll(sep, path, entries)
    ensures i < |entries| && HasFile(entries[i].node, comps) && Kept(entries[i].name, false, comps)
    ensures p == ToSlash(sep, Join(sep, path + [sep] + entries[i].name, comps))
    decreases entries, 0
  {
    var e := entries[0];
    if p in Walk(sep, path + [sep] + e.name, e.name, false, e.node) {
      i := 0;
      comps := WalkSound(sep, path + [sep] + e.name, e.name, false, e.node, p);
    } else {
      i, comps := WalkAllSound(sep, path, entries[1..], p);
      i := i + 1;
    }
  }

  /** Every selected file is appended. */
  lemma {:induction false} WalkComplete(sep: byte, path: Path, name: Name, isRoot: bool, node: Node, comps: seq<Name>)
    requires HasFile(node, comps) && Kept(name, isRoot, comps)
    ensures ToSlash(sep, Join(sep, path, comps)) in Walk(sep, path, name, isRoot, node)
    decreases |comps|
  {
    if comps == [] {
      AllowedIff(name);
      assert Last([name] + comps) == name;
    } else {
      PrunedIff(name, isRoot);
      KeptBelow(name, isRoot, comps);
      var i :| 0 <= i < |node.entries| && Leads(node.entries[i], comps);
      var e := node.entries[i];
      WalkComplete(sep, path + [sep] + e.name, e.name, false, e.node, comps[1..]);
      WalkAllHas(sep, path, node.entries, i, ToSlash(sep, Join(sep, path, comps)));
    }
  }

  lemma {:induction false} WalkAllHas(sep: byte, path: Path, entries: seq<DirEntry>, i: nat, p: Path)
    requires i < |entries|
    requires p in Walk(sep, path + [sep] + entries[i].name, entries[i].name, false, entries[i].node)
    ensures p in WalkAll(sep, path, entries)
    decreases |entries|
  {
    if i > 0 {
      WalkAllHas(sep, path, entries[1..], i - 1, p);
    }
  }

  // ----- Byte-wise order and sorting -----

  lemma {:induction false} LessIsStrictOrder(a: Path, b: Path)
    ensures !Less(a, a)
    ensures !(Less(a, b) && Less(b, a))
    ensures Less(a, b) || a == b || Less(b, a)
    decreases |a|
  {
    if a != [] {
      LessIsStrictOrder(a[1..], if b == [] then [] else b[1..]);
      if b != [] {
        assert a == [a[0]] + a[1..] && b == [b[0]] + b[1..];
      }
    }
  }

  lemma {:induction false} LessTransitive(a: Path, b: Path, c: Path)
    requires Less(a, b) && Less(b, c)
    ensures Less(a, c)
    decreases |a|
  {
    if a != [] && a[0] == b[0] && b[0] == c[0] {
      LessTransitive(a[1..], b[1..], c[1..]);
    }
  }

  ghost predicate Distinct(ps: seq<Path>) {
    forall i, j :: 0 <= i < j < |ps| ==> ps[i] != ps[j]
  }

  lemma {:induction false} InsertKeeps(p: Path, sorted: seq<Path>)
    ensures multiset(InsertSorted(p, sorted)) == multiset(sorted) + multiset{p}
    decreases |sorted|
  {
    if sorted != [] {
      assert sorted == [sorted[0]] + sorted[1..];
      InsertKeeps(p, sorted[1..]);
    }
  }

  /** Sorting loses nothing and invents nothing. */
  lemma {:induction false} SortedKeeps(ps: seq<Path>)
    ensures multiset(Sorted(ps)) == multiset(ps)
    ensures forall p :: p in Sorted(ps) <==> p in ps
    decreases |ps|
  {
    if ps != [] {
      SortedKeeps(ps[1..]);
      InsertKeeps(ps[0], Sorted(ps[1..]));
      assert ps == [ps[0]] + ps[1..];
    }
    forall p ensures p in Sorted(ps) <==> p in ps {
      assert p in multiset(Sorted(ps)) <==> p in multiset(ps);
    }
  }

  lemma {:induction false} InsertSorts(p: Path, sorted: seq<Path>)
    requires StrictlySorted(sorted) && p !in sorted
    ensures StrictlySorted(InsertSorted(p, sorted))
    decreases |sorted|
  {
    if sorted != [] {
      var first, rest := sorted[0], sorted[1..];
      LessIsStrictOrder(first, p);
      if Less(first, p) {
        InsertSorts(p, rest);
        var tail := InsertSorted(p, rest);
        InsertKeeps(p, rest);
        forall q | q in tail ensures Less(first, q) {
          assert q in multiset(tail);
          assert q == p || q in rest;
        }
      } else {
        forall q | q in rest ensures Less(p, q) {
          LessTransitive(p, first, q);
        }
      }
    }
  }

  /** The sorted list is strictly increasing exactly when no path was listed twice. */
  lemma {:induction false} SortedSorts(ps: seq<Path>)
    ensures StrictlySorted(Sorted(ps)) <==> Distinct(ps)
  {
    if Distinct(ps) {
      DistinctSorts(ps);
    }
    if StrictlySorted(Sorted(ps)) {
      forall i, j | 0 <= i < j < |ps| ensures ps[i] != ps[j] {
        if ps[i] == ps[j] {
          TwiceIn(ps, i, j);
          SortedKeeps(ps);
          StrictlyOnce(Sorted(ps), ps[i]);
        }
      }
    }
  }

  lemma {:induction false} DistinctSorts(ps: seq<Path>)
    requires Distinct(ps)
    ensures StrictlySorted(Sorted(ps))
    decreases |ps|
  {
    if ps != [] {
      DistinctSorts(ps[1..]);
      SortedKeeps(ps[1..]);
      InsertSorts(ps[0], Sorted(ps[1..]));
    }
  }

  lemma TwiceIn(ps: seq<Path>, i: nat, j: nat)
    requires i < j < |ps| && ps[i] == ps[j]
    ensures multiset(ps)[ps[i]] >= 2
  {
    assert ps == ps[..j] + ps[j..];
    assert ps[i] == ps[..j][i] && ps[j] == ps[j..][0];
    assert ps[i] in multiset(ps[..j]) && ps[i] in multiset(ps[j..]);
  }

  lemma {:induction false} StrictlyOnce(ps: seq<Path>, p: Path)
    requires StrictlySorted(ps)
    ensures multiset(ps)[p] <= 1
    decreases |ps|
  {
    if ps != [] {
      var rest := ps[1..];
      assert ps == [ps[0]] + rest;
      StrictlyOnce(rest, p);
      LessIsStrictOrder(ps[0], ps[0]);
      if p == ps[0] {
        assert p !in rest;
        assert p !in multiset(rest);
      }
    }
  }

  /** A strictly increasing list is fixed by its elements. */
  lemma {:induction false} SortedUnique(a: seq<Path>, b: seq<Path>)
    requires StrictlySorted(a) && StrictlySorted(b)
    requires forall p :: p in a <==> p in b
    ensures a == b
    decreases |a|
  {
    assert a != [] ==> a[0] in b;
    assert b != [] ==> b[0] in a;
    if a != [] {
      LessIsStrictOrder(a[0], b[0]);
      LessIsStrictOrder(a[0], a[0]);
      assert a[0] == b[0];
      forall p ensures p in a[1..] <==> p in b[1..] {
        if p in a[1..] { assert p in a && p != a[0] && p in b; }
        if p in b[1..] { assert p in b && p != b[0] && p in a; }
      }
      SortedUnique(a[1..], b[1..]);
      assert a == [a[0]] + a[1..] && b == [b[0]] + b[1..];
    }
  }

  /** Why paths are converted before they are sorted: with native separators `a/x` and `a0` change
      places. */
  lemma SortingFirstDiffers()
    ensures var unix, windows := [Text("a/x"), Text("a0")], [Text("a\\x"), Text("a0")];
            && ToSlash(BACKSLASH, windows[0]) == unix[0] && ToSlash(BACKSLASH, windows[1]) == unix[1]
            && Sorted(unix) == unix && Sorted(windows) == [windows[1], windows[0]]
  {
  }
}
