/** Which files are fingerprinted, and in what order (tools/stamp/main.go). */
module Collect {
  import opened Sequences
  import opened Bits
  import opened Stamp

  const SLASH: byte := 47
  const BACKSLASH: byte := 92
  const DOT: byte := 46

  type Name = seq<byte>

  /** A file system tree; the order of `entries` is whatever the file system returns. */
  datatype Node = File | Dir(entries: seq<DirEntry>)

  datatype DirEntry = DirEntry(name: Name, node: Node)

  function Text(s: string): Path {
    seq(|s|, i requires 0 <= i < |s| => var b: byte := s[i] as int % 256; b)
  }

  /** The inputs, named explicitly. */
  const SOURCES: seq<Path> := [
    Text("rust/arti-ffi/Cargo.toml"),
    Text("rust/arti-ffi/Cargo.lock"),
    Text("rust/arti-ffi/src"),
    Text("rust/vendor")
  ]

  // ----- The walk -----

  /** `filepath.Ext` of a name: from its last dot. */
  function Ext(name: Name): Name
    decreases |name|
  {
    if name == [] then []
    else if Last(name) == DOT then [DOT]
    else
      var e := Ext(Init(name));
      if e == [] then [] else e + [Last(name)]
  }

  predicate Allowed(name: Name) {
    Ext(name) == Text(".rs") || Ext(name) == Text(".toml") || Ext(name) == Text(".lock")
  }

  /** Build output anywhere, dot directories anywhere below the root of the walk. */
  predicate Pruned(name: Name, isRoot: bool) {
    name == Text("target") || (!isRoot && name != [] && name[0] == DOT)
  }

  function Replace(p: Path, from: byte, to: byte): (r: Path)
    ensures |r| == |p|
  {
    seq(|p|, i requires 0 <= i < |p| => if p[i] == from then to else p[i])
  }

  /** `filepath.ToSlash` and `filepath.FromSlash` for a platform's separator. */
  function ToSlash(sep: byte, p: Path): Path { Replace(p, sep, SLASH) }

  function FromSlash(sep: byte, p: Path): Path { Replace(p, SLASH, sep) }

  /** The last component of a slash path. */
  function Base(p: Path): Name
    decreases |p|
  {
    if p == [] || Last(p) == SLASH then [] else Base(Init(p)) + [Last(p)]
  }

  /** The walk below `path`, a native path relative to the root; what it appends to `files`. */
  function Walk(sep: byte, path: Path, name: Name, isRoot: bool, node: Node): seq<Path>
    decreases node, 1
  {
    match node
    case File => if Allowed(name) then [ToSlash(sep, path)] else []
    case Dir(entries) => if Pruned(name, isRoot) then [] else WalkAll(sep, path, entries)
  }

  function WalkAll(sep: byte, path: Path, entries: seq<DirEntry>): seq<Path>
    decreases entries, 0
  {
    if entries == [] then []
    else
      var e := entries[0];
      Walk(sep, path + [sep] + e.name, e.name, false, e.node) + WalkAll(sep, path, entries[1..])
  }

  /** All sources, in the order they are named. */
  function WalkSources(sep: byte, disk: map<Path, Node>, sources: seq<Path>): seq<Path>
    requires forall i :: 0 <= i < |sources| ==> sources[i] in disk
    decreases |sources|
  {
    if sources == [] then []
    else
      assert Init(sources) == sources[..|sources| - 1];
      var src := sources[|sources| - 1];
      WalkSources(sep, disk, Init(sources)) + Walk(sep, FromSlash(sep, src), Base(src), true, disk[src])
  }

  // ----- Sorting -----

  /** Byte-wise string order, `a < b`. */
  predicate Less(a: Path, b: Path)
    decreases |a|
  {
    if b == [] then false
    else if a == [] then true
    else a[0] < b[0] || (a[0] == b[0] && Less(a[1..], b[1..]))
  }

  function InsertSorted(p: Path, sorted: seq<Path>): seq<Path>
    decreases |sorted|
  {
    if sorted == [] then [p]
    else if Less(sorted[0], p) then [sorted[0]] + InsertSorted(p, sorted[1..])
    else [p] + sorted
  }

  function Sorted(ps: seq<Path>): seq<Path>
    decreases |ps|
  {
    if ps == [] then [] else InsertSorted(ps[0], Sorted(ps[1..]))
  }

  ghost predicate StrictlySorted(ps: seq<Path>) {
    forall i, j :: 0 <= i < j < |ps| ==> Less(ps[i], ps[j])
  }

  function Collected(sep: byte, disk: map<Path, Node>, sources: seq<Path>): Result<seq<Path>, StampError> {
    if forall i :: 0 <= i < |sources| ==> sources[i] in disk
    then Ok(Sorted(WalkSources(sep, disk, sources)))
    else Err(MissingSource(FirstMissing(disk, sources)))
  }

  function FirstMissing(disk: map<Path, Node>, sources: seq<Path>): (p: Path)
    requires !(forall i :: 0 <= i < |sources| ==> sources[i] in disk)
    ensures p !in disk
    ensures exists i :: 0 <= i < |sources| && sources[i] == p && forall k :: 0 <= k < i ==> sources[k] in disk
    decreases |sources|
  {
    if sources[0] !in disk then sources[0]
    else
      assert exists i :: 0 <= i < |sources| && sources[i] !in disk && sources[i] == sources[1..][i - 1];
      var p := FirstMissing(disk, sources[1..]);
      assert exists i :: 0 <= i < |sources| && sources[i] == p && forall k :: 0 <= k < i ==> sources[k] in disk by {
        var j :| 0 <= j < |sources| - 1 && sources[1..][j] == p && forall k :: 0 <= k < j ==> sources[1..][k] in disk;
        assert forall k :: 0 < k < j + 1 ==> sources[k] == sources[1..][k - 1];
        assert sources[j + 1] == p;
      }
      p
  }

  lemma {:induction false} FirstMissingAt(disk: map<Path, Node>, sources: seq<Path>, i: nat)
    requires i < |sources| && sources[i] !in disk && forall k :: 0 <= k < i ==> sources[k] in disk
    ensures FirstMissing(disk, sources) == sources[i]
    decreases i
  {
    if i > 0 {
      FirstMissingAt(disk, sources[1..], i - 1);
    }
  }

  /** `collect`: every source must exist, and the callback appends to one list. */
  method CollectFiles(sep: byte, disk: map<Path, Node>, sources: seq<Path>) returns (r: Result<seq<Path>, StampError>)
    ensures r == Collected(sep, disk, sources)
  {
    var files := [];
    for i := 0 to |sources|
      invariant forall k :: 0 <= k < i ==> sources[k] in disk
      invariant files == WalkSources(sep, disk, sources[..i])
    {
      var src := sources[i];
      if src !in disk {
        FirstMissingAt(disk, sources, i);
        return Err(MissingSource(src));
      }
      assert Init(sources[..i + 1]) == sources[..i];
      files := files + Walk(sep, FromSlash(sep, src), Base(src), true, disk[src]);
    }
    assert sources[..|sources|] == sources;
    r := Ok(Sorted(files));
  }

  /** `run`, up to the new fingerprint: nothing is hashed unless every input is there, and a list of no
      files is refused. */
  method Run(sep: byte, tree: map<Path, Node>, contents: map<Path, seq<byte>>, sources: seq<Path>,
             digest: seq<byte> -> string)
    returns (r: Result<string, StampError>)
    requires forall s: seq<byte> :: |digest(s)| == 64
    ensures r.Ok? <==> && Collected(sep, tree, sources).Ok?
                       && Collected(sep, tree, sources).value != []
                       && forall p :: p in Collected(sep, tree, sources).value ==> p in contents
    ensures r.Ok? ==> r.value == digest(Stream(Entries(Collected(sep, tree, sources).value, contents)))[..16]
    ensures Collected(sep, tree, sources) == Ok([]) ==> r == Err(NoSources)
    ensures Collected(sep, tree, sources).Err? ==> r == Err(Collected(sep, tree, sources).error)
  {
    var collected := CollectFiles(sep, tree, sources);
    if collected.Err? {
      return Err(collected.error);
    }
    if collected.value == [] {
      return Err(NoSources);
    }
    r := Fingerprint(collected.value, contents, digest);
  }
}
