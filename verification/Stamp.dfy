/** The byte stream that is hashed into the source fingerprint (tools/stamp/main.go). */
module Stamp {
  import opened Sequences
  import opened Bits

  const NUL: byte := 0
  const LF: byte := 10
  const CR: byte := 13
  const ZERO: byte := 48

  type Path = seq<byte>

  /** A file as it enters the stream: its path, and its contents with line endings normalised. */
  datatype Entry = Entry(path: Path, data: seq<byte>)

  // ----- Line endings -----

  /** `bytes.ReplaceAll(data, "\r\n", "\n")`. */
  function Normalise(data: seq<byte>): seq<byte>
    decreases |data|
  {
    if data == [] then []
    else if |data| >= 2 && data[0] == CR && data[1] == LF then [LF] + Normalise(data[2..])
    else [data[0]] + Normalise(data[1..])
  }

  /** A checkout that stores CRLF line endings. */
  function ToCRLF(data: seq<byte>): seq<byte>
    decreases |data|
  {
    if data == [] then []
    else (if data[0] == LF then [CR, LF] else [data[0]]) + ToCRLF(data[1..])
  }

  predicate HasPair(data: seq<byte>) {
    exists i :: 0 <= i < |data| - 1 && data[i] == CR && data[i + 1] == LF
  }

  lemma {:induction false} NormaliseUndoesCRLF(data: seq<byte>)
    ensures Normalise(ToCRLF(data)) == data
    decreases |data|
  {
    if data != [] {
      var rest := ToCRLF(data[1..]);
      NormaliseUndoesCRLF(data[1..]);
      if data[0] == LF {
        assert ToCRLF(data)[2..] == rest;
      } else {
        assert ToCRLF(data)[1..] == rest;
        CRLFNeverStartsWithLF(data[1..]);
      }
    }
  }

  lemma CRLFNeverStartsWithLF(data: seq<byte>)
    ensures ToCRLF(data) != [] ==> ToCRLF(data)[0] != LF
  {
  }

  lemma {:induction false} NormaliseShrinks(data: seq<byte>)
    ensures |Normalise(data)| <= |data|
    ensures HasPair(data) ==> |Normalise(data)| < |data|
    ensures !HasPair(data) ==> Normalise(data) == data
    decreases |data|
  {
    if data != [] {
      if |data| >= 2 && data[0] == CR && data[1] == LF {
        NormaliseShrinks(data[2..]);
      } else {
        var rest := data[1..];
        NormaliseShrinks(rest);
        assert data == [data[0]] + rest;
        if i :| 0 <= i < |data| - 1 && data[i] == CR && data[i + 1] == LF {
          assert rest[i - 1] == CR && rest[i] == LF;
        }
        if i :| 0 <= i < |rest| - 1 && rest[i] == CR && rest[i + 1] == LF {
          assert data[i + 1] == CR && data[i + 2] == LF;
        }
      }
    }
  }

  /** An LF and a CRLF checkout of one file enter the stream alike exactly when the file has no CRLF
      pair of its own. */
  lemma LineEndingsDoNotMatter(data: seq<byte>)
    ensures Normalise(ToCRLF(data)) == Normalise(data) <==> !HasPair(data)
  {
    NormaliseUndoesCRLF(data);
    NormaliseShrinks(data);
  }

  predicate HasTriple(data: seq<byte>) {
    exists i :: 0 <= i < |data| - 2 && data[i] == CR && data[i + 1] == CR && data[i + 2] == LF
  }

  lemma HasPairCons(b: byte, rest: seq<byte>)
    ensures HasPair([b] + rest) <==> (b == CR && rest != [] && rest[0] == LF) || HasPair(rest)
  {
    var data := [b] + rest;
    if b == CR && rest != [] && rest[0] == LF {
      assert data[0] == CR && data[0 + 1] == LF;
    }
    if i :| 0 <= i < |rest| - 1 && rest[i] == CR && rest[i + 1] == LF {
      assert data[i + 1] == CR && data[i + 1 + 1] == LF;
    }
    if i :| 0 < i < |data| - 1 && data[i] == CR && data[i + 1] == LF {
      assert rest[i - 1] == CR && rest[i - 1 + 1] == LF;
    }
  }

  lemma HasTripleCons(b: byte, rest: seq<byte>)
    ensures HasTriple([b] + rest) <==>
            (b == CR && |rest| >= 2 && rest[0] == CR && rest[1] == LF) || HasTriple(rest)
  {
    var data := [b] + rest;
    if b == CR && |rest| >= 2 && rest[0] == CR && rest[1] == LF {
      assert data[0] == CR && data[0 + 1] == CR && data[0 + 2] == LF;
    }
    if i :| 0 <= i < |rest| - 2 && rest[i] == CR && rest[i + 1] == CR && rest[i + 2] == LF {
      assert data[i + 1] == CR && data[i + 1 + 1] == CR && data[i + 1 + 2] == LF;
    }
    if i :| 0 < i < |data| - 2 && data[i] == CR && data[i + 1] == CR && data[i + 2] == LF {
      assert rest[i - 1] == CR && rest[i - 1 + 1] == CR && rest[i - 1 + 2] == LF;
    }
  }

  /** A CRLF pair survives normalising exactly where a second CR stood before one. */
  lemma {:induction false} PairSurvives(data: seq<byte>)
    ensures HasPair(Normalise(data)) <==> HasTriple(data)
    decreases |data|
  {
    if data != [] {
      var rest := data[1..];
      assert data == [data[0]] + rest;
      HasTripleCons(data[0], rest);
      if |data| >= 2 && data[0] == CR && data[1] == LF {
        assert rest == [LF] + data[2..];
        HasTripleCons(LF, data[2..]);
        PairSurvives(data[2..]);
        HasPairCons(LF, Normalise(data[2..]));
      } else {
        PairSurvives(rest);
        HasPairCons(data[0], Normalise(rest));
      }
    }
  }

  /** Normalising is idempotent exactly on content without CR CR LF. */
  lemma {:induction false} NormaliseTwice(data: seq<byte>)
    ensures Normalise(Normalise(data)) == Normalise(data) <==> !HasTriple(data)
  {
    PairSurvives(data);
    NormaliseShrinks(Normalise(data));
  }

  /** CR CR LF needs two passes. */
  lemma TwoPasses()
    ensures Normalise([13, 13, 10]) == [13, 10] && Normalise([13, 10]) == [10]
  {
  }

  // ----- The stream -----

  /** `%d`. */
  function Decimal(n: nat): seq<byte> {
    if n < 10 then [ZERO + n] else Decimal(n / 10) + [ZERO + n % 10]
  }

  predicate IsDigit(b: byte) { ZERO <= b <= ZERO + 9 }

  function DigitValue(b: byte): nat
    requires IsDigit(b)
  {
    b - ZERO
  }

  /** The number a run of digits spells. */
  function Spell(digits: seq<byte>): nat
    requires forall i :: 0 <= i < |digits| ==> IsDigit(digits[i])
    decreases |digits|
  {
    if digits == [] then 0 else 10 * Spell(Init(digits)) + DigitValue(digits[|digits| - 1])
  }

  function EntryBytes(e: Entry): seq<byte> {
    e.path + [NUL] + Decimal(|e.data|) + [NUL] + e.data
  }

  /** One file in the stream, byte by byte: path, NUL, decimal length, NUL, contents. */
  lemma EntryLayout(e: Entry)
    ensures EntryBytes(e) == e.path + [0] + Decimal(|e.data|) + [0] + e.data
    ensures forall i :: 0 <= i < |Decimal(|e.data|)| ==> 48 <= Decimal(|e.data|)[i] <= 57
    ensures |e.data| > 0 ==> Decimal(|e.data|)[0] != 48
  {
    SpellDecimal(|e.data|);
    NoLeadingZero(|e.data|);
  }

  lemma {:induction false} NoLeadingZero(n: nat)
    ensures Decimal(n) != [] && (n > 0 ==> Decimal(n)[0] != 48)
    decreases n
  {
    if n >= 10 {
      NoLeadingZero(n / 10);
    }
  }

  function Stream(entries: seq<Entry>): seq<byte>
    decreases |entries|
  {
    if entries == [] then [] else Stream(Init(entries)) + EntryBytes(Last(entries))
  }

  // ----- Reading it back -----

  /** The bytes before the first NUL, and those after it. */
  function Cut(s: seq<byte>): Option<(seq<byte>, seq<byte>)>
    decreases |s|
  {
    if s == [] then None
    else if s[0] == NUL then Some(([], s[1..]))
    else
      match Cut(s[1..])
      case None => None
      case Some((before, after)) => Some(([s[0]] + before, after))
  }

  function ParseEntry(s: seq<byte>): (r: Option<(Entry, seq<byte>)>)
    ensures r.Some? ==> |r.value.1| < |s|
  {
    match Cut(s)
    case None => None
    case Some((path, s1)) =>
      CutSplits(s);
      match Cut(s1)
      case None => None
      case Some((digits, s2)) =>
        CutSplits(s1);
        if digits == [] || !(forall i :: 0 <= i < |digits| ==> IsDigit(digits[i])) then None
        else
          var n := Spell(digits);
          if Decimal(n) != digits || |s2| < n then None
          else Some((Entry(path, s2[..n]), s2[n..]))
  }

  function Parse(s: seq<byte>): Option<seq<Entry>>
    decreases |s|
  {
    if s == [] then Some([])
    else
      match ParseEntry(s)
      case None => None
      case Some((e, rest)) =>
        match Parse(rest)
        case None => None
        case Some(es) => Some([e] + es)
  }

  predicate NulFree(s: seq<byte>) {
    forall i :: 0 <= i < |s| ==> s[i] != NUL
  }

  predicate Nameable(entries: seq<Entry>) {
    forall i :: 0 <= i < |entries| ==> NulFree(entries[i].path)
  }

  lemma {:induction false} CutSplits(s: seq<byte>)
    ensures Cut(s).Some? ==>
              var (before, after) := Cut(s).value; NulFree(before) && s == before + [NUL] + after
    decreases |s|
  {
    if s != [] && s[0] != NUL {
      CutSplits(s[1..]);
    }
  }

  lemma {:induction false} CutFinds(before: seq<byte>, after: seq<byte>)
    requires NulFree(before)
    ensures Cut(before + [NUL] + after) == Some((before, after))
    decreases |before|
  {
    var s := before + [NUL] + after;
    if before == [] {
      assert s == [NUL] + after;
    } else {
      assert s[1..] == before[1..] + [NUL] + after;
      assert before == [before[0]] + before[1..];
      CutFinds(before[1..], after);
    }
  }

  lemma {:induction false} SpellDecimal(n: nat)
    ensures Decimal(n) != []
    ensures forall i :: 0 <= i < |Decimal(n)| ==> IsDigit(Decimal(n)[i])
    ensures Spell(Decimal(n)) == n
    decreases n
  {
    if n < 10 {
      assert Init(Decimal(n)) == [];
    } else {
      SpellDecimal(n / 10);
      assert Init(Decimal(n)) == Decimal(n / 10);
    }
  }

  lemma ParsesEntry(e: Entry, rest: seq<byte>)
    requires NulFree(e.path)
    ensures ParseEntry(EntryBytes(e) + rest) == Some((e, rest))
  {
    var digits := Decimal(|e.data|);
    SpellDecimal(|e.data|);
    var s2 := e.data + rest;
    assert EntryBytes(e) + rest == e.path + [NUL] + (digits + [NUL] + s2);
    CutFinds(e.path, digits + [NUL] + s2);
    assert NulFree(digits);
    CutFinds(digits, s2);
    assert s2[..|e.data|] == e.data && s2[|e.data|..] == rest;
  }

  lemma StreamSnoc(es: seq<Entry>, e: Entry)
    ensures Stream(es + [e]) == Stream(es) + EntryBytes(e)
  {
    assert Init(es + [e]) == es;
  }

  lemma {:induction false} StreamCons(e: Entry, es: seq<Entry>)
    ensures Stream([e] + es) == EntryBytes(e) + Stream(es)
    decreases |es|
  {
    if es == [] {
      assert [e] + es == [e];
      StreamSnoc([], e);
    } else {
      assert [e] + es == ([e] + Init(es)) + [Last(es)] && es == Init(es) + [Last(es)];
      StreamCons(e, Init(es));
      StreamSnoc([e] + Init(es), Last(es));
      StreamSnoc(Init(es), Last(es));
      ConcatAssoc(EntryBytes(e), Stream(Init(es)), EntryBytes(Last(es)));
    }
  }

  /** The parser inverts the printer, decimal lengths included. */
  lemma {:induction false} ParseInvertsStream(entries: seq<Entry>)
    requires Nameable(entries)
    ensures Parse(Stream(entries)) == Some(entries)
    decreases |entries|
  {
    if entries != [] {
      var e, es := entries[0], entries[1..];
      assert entries == [e] + es;
      StreamCons(e, es);
      ParsesEntry(e, Stream(es));
      ParseInvertsStream(es);
    }
  }

  lemma EntryPrinted(s: seq<byte>)
    requires ParseEntry(s).Some?
    ensures var (e, rest) := ParseEntry(s).value; NulFree(e.path) && s == EntryBytes(e) + rest
  {
    var (path, s1) := Cut(s).value;
    var (digits, s2) := Cut(s1).value;
    CutSplits(s);
    CutSplits(s1);
    var n := Spell(digits);
    assert s2 == s2[..n] + s2[n..];
    ConcatAssoc(path + [NUL], digits, [NUL]);
    ConcatAssoc(digits + [NUL], s2[..n], s2[n..]);
    ConcatAssoc(path + [NUL], digits + [NUL] + s2[..n], s2[n..]);
    ConcatAssoc(path + [NUL], digits + [NUL], s2[..n]);
  }

  /** The parser accepts nothing but printed streams. */
  lemma {:induction false} StreamInvertsParse(s: seq<byte>)
    requires Parse(s).Some?
    ensures Nameable(Parse(s).value) && Stream(Parse(s).value) == s
    decreases |s|
  {
    if s != [] {
      EntryPrinted(s);
      var (e, rest) := ParseEntry(s).value;
      StreamInvertsParse(rest);
      StreamCons(e, Parse(rest).value);
    }
  }

  /** The pre-image of the fingerprint is uniquely decodable: two lists of files with NUL-free paths
      that give the same stream are the same list. */
  lemma UniquelyDecodable(a: seq<Entry>, b: seq<Entry>)
    requires Nameable(a) && Nameable(b)
    ensures Stream(a) == Stream(b) <==> a == b
  {
    ParseInvertsStream(a);
    ParseInvertsStream(b);
  }

  /** The NUL-freedom is needed: a path with NULs in it can pass for two files. */
  lemma NulInPathCollides()
    ensures var a, b := [Entry([1], []), Entry([2], [])], [Entry([1, NUL, ZERO, NUL, 2], [])];
            a != b && Stream(a) == Stream(b)
  {
  }

  /** Exactly when a list with NULs in its paths passes for a proper one: when the parser accepts its
      stream. */
  lemma PassesForAnother(a: seq<Entry>)
    ensures (exists b :: Nameable(b) && b != a && Stream(b) == Stream(a)) <==>
            !Nameable(a) && Parse(Stream(a)).Some?
  {
    if b :| Nameable(b) && b != a && Stream(b) == Stream(a) {
      ParseInvertsStream(b);
      if Nameable(a) {
        UniquelyDecodable(a, b);
      }
    }
    if !Nameable(a) && Parse(Stream(a)).Some? {
      StreamInvertsParse(Stream(a));
      var b := Parse(Stream(a)).value;
      assert Nameable(b) && b != a && Stream(b) == Stream(a);
    }
  }

  // ----- The hashing loop -----

  /** What `sha256.New()` has been given so far. */
  class Hasher {
    var written: seq<byte>

    constructor ()
      ensures written == []
    {
      written := [];
    }

    method Write(bytes: seq<byte>)
      modifies this
      ensures written == old(written) + bytes
    {
      written := written + bytes;
    }
  }

  datatype StampError = Unreadable(path: Path) | MissingSource(path: Path) | NoSources

  /** The entries for a list of paths, read from `disk`. */
  function Entries(files: seq<Path>, disk: map<Path, seq<byte>>): (r: seq<Entry>)
    requires forall p :: p in files ==> p in disk
    ensures |r| == |files|
  {
    seq(|files|, i requires 0 <= i < |files| => assert files[i] in files; Entry(files[i], Normalise(disk[files[i]])))
  }

  /** `fingerprint`: fails on the first unreadable file, otherwise hashes exactly the stream. */
  method Fingerprint(files: seq<Path>, disk: map<Path, seq<byte>>, digest: seq<byte> -> string)
    returns (r: Result<string, StampError>)
    requires forall s: seq<byte> :: |digest(s)| == 64
    ensures (forall p :: p in files ==> p in disk) ==> r == Ok(digest(Stream(Entries(files, disk)))[..16])
    ensures !(forall p :: p in files ==> p in disk) ==>
              exists i :: 0 <= i < |files| && r == Err(Unreadable(files[i])) && files[i] !in disk &&
                forall p :: p in files[..i] ==> p in disk
  {
    var h := new Hasher();
    for i := 0 to |files|
      invariant forall p :: p in files[..i] ==> p in disk
      invariant h.written == Stream(Entries(files[..i], disk))
    {
      var rel := files[i];
      if rel !in disk {
        return Err(Unreadable(rel));
      }
      var data := Normalise(disk[rel]);
      ghost var before := h.written;
      h.Write(rel + [NUL] + Decimal(|data|) + [NUL]);
      h.Write(data);
      assert files[..i + 1] == files[..i] + [rel];
      assert Entries(files[..i + 1], disk) == Entries(files[..i], disk) + [Entry(rel, data)];
      StreamSnoc(Entries(files[..i], disk), Entry(rel, data));
      ConcatAssoc(before, rel + [NUL] + Decimal(|data|) + [NUL], data);
    }
    assert files[..|files|] == files;
    r := Ok(digest(h.written)[..16]);
  }
}
