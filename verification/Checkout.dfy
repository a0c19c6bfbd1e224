/** The fingerprint's pre-image does not depend on how a machine stores or lists the checkout. */
module Checkout {
  import opened Sequences
  import opened Bits
  import opened Stamp
  import opened Collect
  import opened CollectProofs

  /** A component that every platform can store. */
  predicate Plain(name: Name) {
    name != [] && forall i :: 0 <= i < |name| ==> name[i] != SLASH && name[i] != BACKSLASH && name[i] != NUL
  }

  /** Every name below this node is plain, and no directory lists a name twice. */
  ghost predicate Portable(node: Node)
    decreases node, 1
  {
    match node
    case File => true
    case Dir(entries) =>
      && (forall i, j :: 0 <= i < j < |entries| ==> entries[i].name != entries[j].name)
      && AllPortable(entries)
  }

  ghost predicate AllPortable(entries: seq<DirEntry>)
    decreases entries, 0
  {
    entries != [] ==> Plain(entries[0].name) && Portable(entries[0].node) && AllPortable(entries[1..])
  }

  lemma {:induction false} PortableEntry(entries: seq<DirEntry>, i: nat)
    requires AllPortable(entries) && i < |entries|
    ensures Plain(entries[i].name) && Portable(entries[i].node)
    decreases |entries|
  {
    if i > 0 {
      PortableEntry(entries[1..], i - 1);
    }
  }

  /** A source path that reads the same with either separator, once converted. */
  predicate PortablePath(p: Path) {
    forall i :: 0 <= i < |p| ==> p[i] != BACKSLASH && p[i] != NUL
  }

  predicate Separator(sep: byte) { sep == SLASH || sep == BACKSLASH }

  // ----- Separators -----

  /** On either platform, walking the native path appends the slash path. */
  lemma {:induction false} WalkNative(sep: byte, path: Path, name: Name, isRoot: bool, node: Node)
    requires Separator(sep) && PortablePath(path) && Portable(node)
    ensures Walk(sep, FromSlash(sep, path), name, isRoot, node) == Walk(SLASH, path, name, isRoot, node)
    decreases node, 1
  {
    match node
    case File =>
      assert ToSlash(sep, FromSlash(sep, path)) == path;
      assert ToSlash(SLASH, path) == path;
    case Dir(entries) =>
      WalkAllNative(sep, path, entries);
  }

  lemma {:induction false} WalkAllNative(sep: byte, path: Path, entries: seq<DirEntry>)
    requires Separator(sep) && PortablePath(path) && AllPortable(entries)
    ensures WalkAll(sep, FromSlash(sep, path), entries) == WalkAll(SLASH, path, entries)
    decreases entries, 0
  {
    if entries != [] {
      var e := entries[0];
      var below := path + [SLASH] + e.name;
      assert FromSlash(sep, below) == FromSlash(sep, path) + [sep] + e.name;
      WalkNative(sep, below, e.name, false, e.node);
      WalkAllNative(sep, path, entries[1..]);
    }
  }

  // ----- No path is listed twice -----

  /** `p` is `base`, or somewhere below it. */
  ghost predicate Under(base: Path, p: Path) {
    p == base || (|base| < |p| && p[..|base|] == base && p[|base|] == SLASH)
  }

  lemma UnderTrans(base: Path, mid: Path, p: Path)
    requires Under(base, mid) && Under(mid, p)
    ensures Under(base, p)
  {
  }

  lemma {:induction false} WalkUnder(path: Path, name: Name, isRoot: bool, node: Node, p: Path)
    requires p in Walk(SLASH, path, name, isRoot, node)
    ensures Under(path, p)
    decreases node, 1
  {
    match node
    case File =>
      assert ToSlash(SLASH, path) == path;
    case Dir(entries) =>
      var _ := WalkAllUnder(path, entries, p);
  }

  /** A path appended below a directory tells which entry it came from. */
  lemma {:induction false} WalkAllUnder(path: Path, entries: seq<DirEntry>, p: Path) returns (i: nat)
    requires p in WalkAll(SLASH, path, entries)
    ensures i < |entries| && Under(path + [SLASH] + entries[i].name, p) && Under(path, p)
    decreases entries, 0
  {
    var e := entries[0];
    var below := path + [SLASH] + e.name;
    if p in Walk(SLASH, below, e.name, false, e.node) {
      i := 0;
      WalkUnder(below, e.name, false, e.node, p);
      assert Under(path, below);
      UnderTrans(path, below, p);
    } else {
      i := WalkAllUnder(path, entries[1..], p);
      i := i + 1;
    }
  }

  /** Nothing is below two siblings at once. */
  lemma SiblingsApart(path: Path, a: Name, b: Name, p: Path)
    requires Plain(a) && Plain(b)
    requires Under(path + [SLASH] + a, p) && Under(path + [SLASH] + b, p)
    ensures a == b
  {
    var n := |path| + 1;
    if |a| == |b| {
      assert path + [SLASH] + a == p[..n + |a|] == path + [SLASH] + b;
      assert a == (path + [SLASH] + a)[n..] && b == (path + [SLASH] + b)[n..];
    }
  }

  lemma DistinctConcat(a: seq<Path>, b: seq<Path>)
    requires Distinct(a) && Distinct(b) && forall p :: p in a ==> p !in b
    ensures Distinct(a + b)
  {
    forall i, j | 0 <= i < j < |a + b| ensures (a + b)[i] != (a + b)[j] {
      if i < |a| <= j {
        assert a[i] in a && b[j - |a|] in b;
      }
    }
  }

  lemma {:induction false} WalkDistinct(path: Path, name: Name, isRoot: bool, node: Node)
    requires Portable(node)
    ensures Distinct(Walk(SLASH, path, name, isRoot, node))
    decreases node, 1
  {
    match node
    case File =>
    case Dir(entries) =>
      WalkAllDistinct(path, entries);
  }

  lemma {:induction false} WalkAllDistinct(path: Path, entries: seq<DirEntry>)
    requires AllPortable(entries)
    requires forall i, j :: 0 <= i < j < |entries| ==> entries[i].name != entries[j].name
    ensures Distinct(WalkAll(SLASH, path, entries))
    decreases entries, 0
  {
    if entries != [] {
      var e, rest := entries[0], entries[1..];
      var below := path + [SLASH] + e.name;
      var first := Walk(SLASH, below, e.name, false, e.node);
      WalkDistinct(below, e.name, false, e.node);
      WalkAllDistinct(path, rest);
      assert forall i :: 0 <= i < |rest| ==> rest[i] == entries[i + 1];
      forall p | p in first ensures p !in WalkAll(SLASH, path, rest) {
        if p in WalkAll(SLASH, path, rest) {
          WalkUnder(below, e.name, false, e.node, p);
          var i := WalkAllUnder(path, rest, p);
          PortableEntry(rest, i);
          SiblingsApart(path, e.name, rest[i].name, p);
        }
      }
      DistinctConcat(first, WalkAll(SLASH, path, rest));
    }
  }

  // ----- All sources -----

  /** No source is inside another. */
  ghost predicate Apart(sources: seq<Path>) {
    forall i, j :: 0 <= i < |sources| && 0 <= j < |sources| && i != j ==>
      forall p :: Under(sources[i], p) ==> !Under(sources[j], p)
  }

  /** A checkout in which every source is there, and can be stored on every platform. */
  ghost predicate Complete(disk: map<Path, Node>, sources: seq<Path>) {
    forall i :: 0 <= i < |sources| ==> sources[i] in disk && PortablePath(sources[i]) && Portable(disk[sources[i]])
  }

  lemma {:induction false} SourcesNative(sep: byte, disk: map<Path, Node>, sources: seq<Path>)
    requires Separator(sep) && Complete(disk, sources)
    ensures WalkSources(sep, disk, sources) == WalkSources(SLASH, disk, sources)
    decreases |sources|
  {
    if sources != [] {
      var src := sources[|sources| - 1];
      SourcesNative(sep, disk, Init(sources));
      WalkNative(sep, src, Base(src), true, disk[src]);
      WalkNative(SLASH, src, Base(src), true, disk[src]);
    }
  }

  lemma {:induction false} SourcesUnder(disk: map<Path, Node>, sources: seq<Path>, p: Path) returns (i: nat)
    requires Complete(disk, sources) && p in WalkSources(SLASH, disk, sources)
    ensures i < |sources| && Under(sources[i], p)
    ensures p in Walk(SLASH, sources[i], Base(sources[i]), true, disk[sources[i]])
    decreases |sources|
  {
    var src := sources[|sources| - 1];
    assert FromSlash(SLASH, src) == src;
    if p in WalkSources(SLASH, disk, Init(sources)) {
      i := SourcesUnder(disk, Init(sources), p);
    } else {
      i := |sources| - 1;
      WalkUnder(src, Base(src), true, disk[src], p);
    }
  }

  lemma {:induction false} SourcesDistinct(disk: map<Path, Node>, sources: seq<Path>)
    requires Complete(disk, sources) && Apart(sources)
    ensures Distinct(WalkSources(SLASH, disk, sources))
    decreases |sources|
  {
    if sources != [] {
      var n := |sources| - 1;
      var src, earlier := sources[n], Init(sources);
      assert FromSlash(SLASH, src) == src;
      SourcesDistinct(disk, earlier);
      WalkDistinct(src, Base(src), true, disk[src]);
      var walked := WalkSources(SLASH, disk, earlier);
      forall p | p in walked ensures p !in Walk(SLASH, src, Base(src), true, disk[src]) {
        var i := SourcesUnder(disk, earlier, p);
        assert sources[i] == earlier[i];
        if p in Walk(SLASH, src, Base(src), true, disk[src]) {
          WalkUnder(src, Base(src), true, disk[src], p);
        }
      }
      DistinctConcat(walked, Walk(SLASH, src, Base(src), true, disk[src]));
    }
  }

  // ----- Exactly which files, in which order -----

  lemma {:induction false} SelectedWalked(sep: byte, disk: map<Path, Node>, sources: seq<Path>,
                                          src: Path, comps: seq<Name>)
    requires forall i :: 0 <= i < |sources| ==> sources[i] in disk
    requires src in sources && Selected(disk, src, comps)
    ensures ToSlash(sep, Join(sep, FromSlash(sep, src), comps)) in WalkSources(sep, disk, sources)
    decreases |sources|
  {
    assert sources == Init(sources) + [Last(sources)];
    if src in Init(sources) {
      SelectedWalked(sep, disk, Init(sources), src, comps);
    } else {
      WalkComplete(sep, FromSlash(sep, src), Base(src), true, disk[src], comps);
    }
  }

  lemma {:induction false} WalkedSelected(sep: byte, disk: map<Path, Node>, sources: seq<Path>, p: Path)
    returns (src: Path, comps: seq<Name>)
    requires forall i :: 0 <= i < |sources| ==> sources[i] in disk
    requires p in WalkSources(sep, disk, sources)
    ensures src in sources && Selected(disk, src, comps) && p == ToSlash(sep, Join(sep, FromSlash(sep, src), comps))
    decreases |sources|
  {
    if p in WalkSources(sep, disk, Init(sources)) {
      src, comps := WalkedSelected(sep, disk, Init(sources), p);
    } else {
      src := Last(sources);
      comps := WalkSound(sep, FromSlash(sep, src), Base(src), true, disk[src], p);
    }
  }

  /** `collect` returns exactly the selected files of all sources, on any platform and any disk. */
  lemma CollectedExactly(sep: byte, disk: map<Path, Node>, sources: seq<Path>, p: Path)
    requires Collected(sep, disk, sources).Ok?
    ensures p in Collected(sep, disk, sources).value <==>
              exists src, comps :: src in sources && Selected(disk, src, comps) &&
                p == ToSlash(sep, Join(sep, FromSlash(sep, src), comps))
  {
    SortedKeeps(WalkSources(sep, disk, sources));
    if p in WalkSources(sep, disk, sources) {
      var src, comps := WalkedSelected(sep, disk, sources, p);
    }
    if src, comps :| (src in sources && Selected(disk, src, comps) &&
                      p == ToSlash(sep, Join(sep, FromSlash(sep, src), comps))) {
      SelectedWalked(sep, disk, sources, src, comps);
    }
  }

  /** A portable checkout is listed strictly sorted, alike with either separator. */
  lemma CollectedSorted(sep: byte, disk: map<Path, Node>, sources: seq<Path>)
    requires Separator(sep) && Complete(disk, sources) && Apart(sources)
    ensures Collected(sep, disk, sources).Ok? && StrictlySorted(Collected(sep, disk, sources).value)
    ensures Collected(sep, disk, sources) == Collected(SLASH, disk, sources)
  {
    SourcesNative(sep, disk, sources);
    SourcesDistinct(disk, sources);
    SortedSorts(WalkSources(SLASH, disk, sources));
  }

  // ----- Enumeration order -----

  /** Everything listed in `a` is listed in `b`, in whatever order. */
  ghost predicate Included(a: Node, b: Node)
    decreases a
  {
    match a
    case File => b.File?
    case Dir(es) =>
      b.Dir? &&
      forall i :: 0 <= i < |es| ==>
        exists j :: 0 <= j < |b.entries| && es[i].name == b.entries[j].name && Included(es[i].node, b.entries[j].node)
  }

  /** The same tree, each directory listed in whatever order. */
  ghost predicate SameListing(a: Node, b: Node) {
    Included(a, b) && Included(b, a)
  }

  lemma {:induction false} IncludedFiles(a: Node, b: Node, comps: seq<Name>)
    requires Included(a, b) && HasFile(a, comps)
    ensures HasFile(b, comps)
    decreases |comps|
  {
    if comps != [] {
      var i :| 0 <= i < |a.entries| && Leads(a.entries[i], comps);
      var j :| 0 <= j < |b.entries| && a.entries[i].name == b.entries[j].name &&
               Included(a.entries[i].node, b.entries[j].node);
      IncludedFiles(a.entries[i].node, b.entries[j].node, comps[1..]);
      assert Leads(b.entries[j], comps);
    }
  }

  ghost predicate SameDisk(a: map<Path, Node>, b: map<Path, Node>, sources: seq<Path>) {
    forall src :: src in sources ==> src in a && src in b && SameListing(a[src], b[src])
  }

  lemma SameDiskSelects(a: map<Path, Node>, b: map<Path, Node>, sources: seq<Path>, src: Path, comps: seq<Name>)
    requires SameDisk(a, b, sources) && src in sources
    ensures Selected(a, src, comps) <==> Selected(b, src, comps)
  {
    if Selected(a, src, comps) {
      IncludedFiles(a[src], b[src], comps);
    }
    if Selected(b, src, comps) {
      IncludedFiles(b[src], a[src], comps);
    }
  }

  /** One tree, any two enumeration orders, any two separators: one list. */
  lemma CollectedReproducible(sepA: byte, a: map<Path, Node>, sepB: byte, b: map<Path, Node>, sources: seq<Path>)
    requires Separator(sepA) && Separator(sepB) && Apart(sources)
    requires Complete(a, sources) && Complete(b, sources) && SameDisk(a, b, sources)
    ensures Collected(sepA, a, sources).Ok? && Collected(sepA, a, sources) == Collected(sepB, b, sources)
  {
    CollectedSorted(sepA, a, sources);
    CollectedSorted(sepB, b, sources);
    var filesA, filesB := Collected(SLASH, a, sources).value, Collected(SLASH, b, sources).value;
    forall p ensures p in filesA <==> p in filesB {
      CollectedExactly(SLASH, a, sources, p);
      CollectedExactly(SLASH, b, sources, p);
      forall src, comps | src in sources ensures Selected(a, src, comps) <==> Selected(b, src, comps) {
        SameDiskSelects(a, b, sources, src, comps);
      }
    }
    SortedUnique(filesA, filesB);
  }

  // ----- The pre-image -----

  /** `data` is `content` as checked out with LF or with CRLF line endings. */
  predicate CheckedOut(data: seq<byte>, content: seq<byte>) {
    data == content || data == ToCRLF(content)
  }

  /** `disk` holds a checkout of `repo` for every listed file. */
  ghost predicate Holds(disk: map<Path, seq<byte>>, repo: map<Path, seq<byte>>, files: seq<Path>) {
    forall p :: p in files ==> p in disk && p in repo && !HasPair(repo[p]) && CheckedOut(disk[p], repo[p])
  }

  /** Two machines with checkouts of the same sources hash the same bytes: whatever order their file
      systems list directories in, whichever separator they use, and whether a file is stored with LF
      or CRLF line endings, as long as its content holds no CRLF pair. */
  lemma PreimageReproducible(sepA: byte, a: map<Path, Node>, dataA: map<Path, seq<byte>>,
                             sepB: byte, b: map<Path, Node>, dataB: map<Path, seq<byte>>,
                             sources: seq<Path>, repo: map<Path, seq<byte>>)
    requires Separator(sepA) && Separator(sepB) && Apart(sources)
    requires Complete(a, sources) && Complete(b, sources) && SameDisk(a, b, sources)
    requires Collected(sepA, a, sources).Ok? && Holds(dataA, repo, Collected(sepA, a, sources).value)
    requires Collected(sepB, b, sources).Ok? && Holds(dataB, repo, Collected(sepB, b, sources).value)
    ensures Stream(Entries(Collected(sepA, a, sources).value, dataA)) ==
            Stream(Entries(Collected(sepB, b, sources).value, dataB))
  {
    CollectedReproducible(sepA, a, sepB, b, sources);
    var files := Collected(sepA, a, sources).value;
    forall i | 0 <= i < |files| ensures Normalise(dataA[files[i]]) == Normalise(dataB[files[i]]) {
      assert files[i] in files;
      LineEndingsDoNotMatter(repo[files[i]]);
    }
    assert Entries(files, dataA) == Entries(files, dataB);
  }

  lemma {:induction false} WalkNulFree(path: Path, name: Name, isRoot: bool, node: Node, p: Path)
    requires PortablePath(path) && Portable(node) && p in Walk(SLASH, path, name, isRoot, node)
    ensures NulFree(p)
    decreases node, 1
  {
    match node
    case File =>
      assert ToSlash(SLASH, path) == path;
    case Dir(entries) =>
      WalkAllNulFree(path, entries, p);
  }

  lemma {:induction false} WalkAllNulFree(path: Path, entries: seq<DirEntry>, p: Path)
    requires PortablePath(path) && AllPortable(entries) && p in WalkAll(SLASH, path, entries)
    ensures NulFree(p)
    decreases entries, 0
  {
    var e := entries[0];
    var below := path + [SLASH] + e.name;
    if p in Walk(SLASH, below, e.name, false, e.node) {
      WalkNulFree(below, e.name, false, e.node, p);
    } else {
      WalkAllNulFree(path, entries[1..], p);
    }
  }

  lemma CollectedNulFree(sep: byte, disk: map<Path, Node>, sources: seq<Path>)
    requires Separator(sep) && Complete(disk, sources)
    ensures Collected(sep, disk, sources).Ok?
    ensures forall p :: p in Collected(sep, disk, sources).value ==> NulFree(p)
  {
    SourcesNative(sep, disk, sources);
    SortedKeeps(WalkSources(SLASH, disk, sources));
    forall p | p in WalkSources(SLASH, disk, sources) ensures NulFree(p) {
      var i := SourcesUnder(disk, sources, p);
      WalkNulFree(sources[i], Base(sources[i]), true, disk[sources[i]], p);
    }
  }

  /** The pre-image misses no change: two portable checkouts give the same bytes exactly when they list
      the same files, with the same contents up to line endings. */
  lemma PreimageTellsApart(sepA: byte, a: map<Path, Node>, dataA: map<Path, seq<byte>>,
                           sepB: byte, b: map<Path, Node>, dataB: map<Path, seq<byte>>, sources: seq<Path>)
    requires Separator(sepA) && Separator(sepB)
    requires Complete(a, sources) && Complete(b, sources)
    requires Collected(sepA, a, sources).Ok? && forall p :: p in Collected(sepA, a, sources).value ==> p in dataA
    requires Collected(sepB, b, sources).Ok? && forall p :: p in Collected(sepB, b, sources).value ==> p in dataB
    ensures var filesA, filesB := Collected(sepA, a, sources).value, Collected(sepB, b, sources).value;
            Stream(Entries(filesA, dataA)) == Stream(Entries(filesB, dataB)) <==>
            filesA == filesB && forall p :: p in filesA ==> Normalise(dataA[p]) == Normalise(dataB[p])
  {
    var filesA, filesB := Collected(sepA, a, sources).value, Collected(sepB, b, sources).value;
    CollectedNulFree(sepA, a, sources);
    CollectedNulFree(sepB, b, sources);
    var entriesA, entriesB := Entries(filesA, dataA), Entries(filesB, dataB);
    UniquelyDecodable(entriesA, entriesB);
    if entriesA == entriesB {
      EntriesTell(filesA, dataA, filesB, dataB);
    }
    if filesA == filesB && forall p :: p in filesA ==> Normalise(dataA[p]) == Normalise(dataB[p]) {
      assert forall i :: 0 <= i < |filesA| ==> filesA[i] in filesA;
      assert entriesA == entriesB;
    }
  }

  lemma EntriesTell(filesA: seq<Path>, dataA: map<Path, seq<byte>>, filesB: seq<Path>, dataB: map<Path, seq<byte>>)
    requires forall p :: p in filesA ==> p in dataA
    requires forall p :: p in filesB ==> p in dataB
    requires Entries(filesA, dataA) == Entries(filesB, dataB)
    ensures filesA == filesB && forall p :: p in filesA ==> Normalise(dataA[p]) == Normalise(dataB[p])
  {
    var ea, eb := Entries(filesA, dataA), Entries(filesB, dataB);
    forall i | 0 <= i < |filesA|
      ensures filesA[i] == filesB[i] && Normalise(dataA[filesA[i]]) == Normalise(dataB[filesB[i]])
    {
      assert ea[i] == eb[i];
    }
  }

  // ----- The sources that are named -----

  lemma DiffersAt(a: Path, b: Path, n: nat)
    requires n < |a| && n < |b| && a[n] != b[n]
    ensures forall p :: Under(a, p) ==> !Under(b, p)
  {
  }

  lemma Ascii(s: string)
    requires forall i :: 0 <= i < |s| ==> 0 < s[i] as int < 128 && s[i] != '\\'
    ensures PortablePath(Text(s))
  {
  }

  lemma TextAt(s: string, n: nat)
    requires n < |s| && s[n] as int < 128
    ensures n < |Text(s)| && Text(s)[n] == s[n] as int
  {
  }

  lemma NamedArePortable()
    ensures PortablePath(Text("rust/arti-ffi/Cargo.toml"))
    ensures PortablePath(Text("rust/arti-ffi/Cargo.lock"))
    ensures PortablePath(Text("rust/arti-ffi/src"))
    ensures PortablePath(Text("rust/vendor"))
  {
    Ascii("rust/arti-ffi/Cargo.toml");
    Ascii("rust/arti-ffi/Cargo.lock");
    Ascii("rust/arti-ffi/src");
    Ascii("rust/vendor");
  }

  lemma NamedDiffer(a: string, b: string, n: nat)
    requires n < |a| && n < |b| && a[n] as int < 128 && b[n] as int < 128 && a[n] != b[n]
    ensures forall p :: Under(Text(a), p) ==> !Under(Text(b), p)
    ensures forall p :: Under(Text(b), p) ==> !Under(Text(a), p)
  {
    TextAt(a, n);
    TextAt(b, n);
    DiffersAt(Text(a), Text(b), n);
    DiffersAt(Text(b), Text(a), n);
  }

  lemma BaseOfText(dir: string, file: string)
    requires forall i :: 0 <= i < |file| ==> file[i] as int < 128 && file[i] != '/'
    ensures Base(Text(dir + "/" + file)) == Text(file)
  {
    assert Text(dir + "/" + file) == Text(dir) + [47] + Text(file);
    BaseIsTail(Text(dir), Text(file));
  }

  lemma ManifestNames()
    ensures SourceName(Text("Cargo.toml")) && SourceName(Text("Cargo.lock"))
  {
    assert Text("Cargo.toml")[5..] == [46, 116, 111, 109, 108];
    assert Text("Cargo.lock")[5..] == [46, 108, 111, 99, 107];
  }

  lemma NamedBases()
    ensures Base(Text("rust/arti-ffi/Cargo.toml")) == Text("Cargo.toml")
    ensures Base(Text("rust/arti-ffi/Cargo.lock")) == Text("Cargo.lock")
    ensures Base(Text("rust/arti-ffi/src")) == Text("src")
  {
    BaseOfText("rust/arti-ffi", "Cargo.toml");
    BaseOfText("rust/arti-ffi", "Cargo.lock");
    BaseOfText("rust/arti-ffi", "src");
    assert "rust/arti-ffi/Cargo.toml" == "rust/arti-ffi" + "/" + "Cargo.toml";
    assert "rust/arti-ffi/Cargo.lock" == "rust/arti-ffi" + "/" + "Cargo.lock";
    assert "rust/arti-ffi/src" == "rust/arti-ffi" + "/" + "src";
  }

  lemma FileIsListed(sep: byte, disk: map<Path, Node>, sources: seq<Path>, src: Path)
    requires Separator(sep) && Collected(sep, disk, sources).Ok? && src in sources && PortablePath(src)
    requires src in disk && disk[src].File? && SourceName(Base(src))
    ensures src in Collected(sep, disk, sources).value
  {
    assert ToSlash(sep, FromSlash(sep, src)) == src;
    assert Selected(disk, src, []);
    CollectedExactly(sep, disk, sources, src);
  }

  lemma EntryIsListed(sep: byte, disk: map<Path, Node>, sources: seq<Path>, src: Path, name: Name)
    requires Separator(sep) && Collected(sep, disk, sources).Ok? && src in sources && PortablePath(src)
    requires src in disk && HasFile(disk[src], [name]) && Plain(name) && SourceName(name)
    requires !SkippedName(Base(src), true)
    ensures src + [47] + name in Collected(sep, disk, sources).value
  {
    var p := src + [47] + name;
    assert ToSlash(sep, FromSlash(sep, src) + [sep] + name) == p;
    assert [Base(src)] + [name] == [Base(src), name];
    assert Selected(disk, src, [name]);
    assert Join(sep, FromSlash(sep, src), [name]) == FromSlash(sep, src) + [sep] + name;
    CollectedExactly(sep, disk, sources, p);
  }

  /** Four inputs, of which two are manifests and the third a directory of source files. */
  ghost predicate Covers(sep: byte, disk: map<Path, Node>, sources: seq<Path>,
                         toml: Path, lock: Path, src: Path, vendor: Path, name: Name)
  {
    var r := Collected(sep, disk, sources);
    && (r.Ok? <==> toml in disk && lock in disk && src in disk && vendor in disk)
    && (r.Ok? ==>
          && (disk[toml].File? ==> toml in r.value)
          && (disk[lock].File? ==> lock in r.value)
          && (Plain(name) && EndsIn(name, [46, 114, 115]) && HasFile(disk[src], [name]) ==>
                src + [47] + name in r.value))
  }

  lemma FourAreCovered(sep: byte, disk: map<Path, Node>, sources: seq<Path>,
                       toml: Path, lock: Path, src: Path, vendor: Path, name: Name)
    requires Separator(sep) && sources == [toml, lock, src, vendor]
    requires PortablePath(toml) && PortablePath(lock) && PortablePath(src)
    requires SourceName(Base(toml)) && SourceName(Base(lock)) && !SkippedName(Base(src), true)
    ensures Covers(sep, disk, sources, toml, lock, src, vendor, name)
  {
    assert sources[0] == toml && sources[1] == lock && sources[2] == src && sources[3] == vendor;
    if Collected(sep, disk, sources).Ok? {
      if disk[toml].File? { FileIsListed(sep, disk, sources, toml); }
      if disk[lock].File? { FileIsListed(sep, disk, sources, lock); }
      if HasFile(disk[src], [name]) && EndsIn(name, [46, 114, 115]) && Plain(name) {
        EntryIsListed(sep, disk, sources, src, name);
      }
    }
  }

  /** The fingerprint needs all four inputs and covers both manifests, on either platform, and with them
      every `.rs` file directly in the crate. */
  lemma CrateIsCovered(sep: byte, disk: map<Path, Node>, name: Name)
    requires Separator(sep)
    ensures Covers(sep, disk, SOURCES, Text("rust/arti-ffi/Cargo.toml"), Text("rust/arti-ffi/Cargo.lock"),
                   Text("rust/arti-ffi/src"), Text("rust/vendor"), name)
  {
    NamedArePortable();
    NamedBases();
    ManifestNames();
    FourAreCovered(sep, disk, SOURCES, Text("rust/arti-ffi/Cargo.toml"), Text("rust/arti-ffi/Cargo.lock"),
                   Text("rust/arti-ffi/src"), Text("rust/vendor"), name);
  }

  lemma ApartFour(s: seq<Path>)
    requires |s| == 4
    requires forall i, j :: 0 <= i < j < 4 ==> forall p :: Under(s[i], p) ==> !Under(s[j], p)
    ensures Apart(s)
  {
  }

  /** The four named inputs are portable paths, none inside another. */
  lemma SourcesApart()
    ensures Apart(SOURCES)
    ensures forall i :: 0 <= i < |SOURCES| ==> PortablePath(SOURCES[i])
  {
    NamedArePortable();
    NamedDiffer("rust/arti-ffi/Cargo.toml", "rust/arti-ffi/Cargo.lock", 20);
    NamedDiffer("rust/arti-ffi/Cargo.toml", "rust/arti-ffi/src", 14);
    NamedDiffer("rust/arti-ffi/Cargo.lock", "rust/arti-ffi/src", 14);
    NamedDiffer("rust/arti-ffi/Cargo.toml", "rust/vendor", 5);
    NamedDiffer("rust/arti-ffi/Cargo.lock", "rust/vendor", 5);
    NamedDiffer("rust/arti-ffi/src", "rust/vendor", 5);
    ApartFour(SOURCES);
  }
}
