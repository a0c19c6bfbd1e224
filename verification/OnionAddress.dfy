/** Version 3 onion addresses: base32 of key, checksum and version
    (internal/arti/onionkey.go; section 6 of rend-spec-v3). */
module OnionAddress {
  import opened Sequences
  import opened Bits

  /** What the Go standard library does where this model claims nothing: case mapping and white
      space beyond ASCII, base32 input that is not whole quanta over the alphabet, and the first
      two bytes of a SHA3-256 digest. Every statement holds for all of these. */
  datatype GoLibrary = GoLibrary(
    lower: char -> char, upper: char -> char, space: char -> bool,
    tail: string -> Option<seq<byte>>, digest: seq<byte> -> (byte, byte))

  datatype AddressError =
    | BadKeySize(size: nat) | Malformed | BadLength(size: nat) | BadVersion(version: byte) | BadChecksum

  const PUBLIC_KEY_SIZE: nat := 32
  const ONION_VERSION: byte := 3
  const CHECKSUM_PREFIX: string := ".onion checksum"
  const SUFFIX: string := ".onion"

  // ----- Text -----

  predicate Ascii(c: char) { c as int < 128 }

  function Lower(lib: GoLibrary, c: char): char {
    if !Ascii(c) then lib.lower(c) else if 'A' <= c <= 'Z' then (c as int + 32) as char else c
  }

  function Upper(lib: GoLibrary, c: char): char {
    if !Ascii(c) then lib.upper(c) else if 'a' <= c <= 'z' then (c as int - 32) as char else c
  }

  predicate IsSpace(lib: GoLibrary, c: char) {
    if Ascii(c) then c == ' ' || 9 <= c as int <= 13 else lib.space(c)
  }

  function ToLower(lib: GoLibrary, s: string): (r: string)
    ensures |r| == |s|
  {
    seq(|s|, i requires 0 <= i < |s| => Lower(lib, s[i]))
  }

  function ToUpper(lib: GoLibrary, s: string): (r: string)
    ensures |r| == |s|
  {
    seq(|s|, i requires 0 <= i < |s| => Upper(lib, s[i]))
  }

  function TrimLeft(lib: GoLibrary, s: string): string
    decreases |s|
  {
    if s != [] && IsSpace(lib, s[0]) then TrimLeft(lib, s[1..]) else s
  }

  function TrimRight(lib: GoLibrary, s: string): string
    decreases |s|
  {
    if s != [] && IsSpace(lib, Last(s)) then TrimRight(lib, Init(s)) else s
  }

  function TrimSpace(lib: GoLibrary, s: string): string {
    TrimRight(lib, TrimLeft(lib, s))
  }

  function TrimSuffix(s: string, suffix: string): string {
    if |suffix| <= |s| && s[|s| - |suffix|..] == suffix then s[..|s| - |suffix|] else s
  }

  // ----- Base32 -----

  predicate InAlphabet(c: char) { 'A' <= c <= 'Z' || '2' <= c <= '7' }

  function SymbolChar(v: nat): char
    requires v < 32
  {
    if v < 26 then (v + 65) as char else (v + 24) as char
  }

  function CharSymbol(c: char): (r: nat)
    requires InAlphabet(c)
    ensures r < 32
  {
    if c >= 'A' then c as int - 65 else c as int - 24
  }

  function Symbols(s: string): (r: seq<nat>)
    requires forall i :: 0 <= i < |s| ==> InAlphabet(s[i])
    ensures |r| == |s| && Fit(r, 5)
  {
    assert Pow2(5) == 32;
    seq(|s|, i requires 0 <= i < |s| => CharSymbol(s[i]))
  }

  function Chars(symbols: seq<nat>): (r: string)
    requires Fit(symbols, 5)
    ensures |r| == |symbols|
  {
    assert Pow2(5) == 32;
    seq(|symbols|, i requires 0 <= i < |symbols| => SymbolChar(symbols[i]))
  }

  function EncodeToString(bytes: seq<byte>): string {
    DecodeEncode(bytes, 5);
    Chars(Encode(bytes, 5))
  }

  function DecodeString(lib: GoLibrary, s: string): Option<seq<byte>> {
    if |s| % 8 == 0 && forall i :: 0 <= i < |s| ==> InAlphabet(s[i])
    then Some(Decode(Symbols(s), 5))
    else lib.tail(s)
  }

  // ----- The address -----

  function ByteOf(c: char): byte
    requires Ascii(c)
  {
    c as int
  }

  function BytesOf(s: string): (r: seq<byte>)
    requires forall i :: 0 <= i < |s| ==> Ascii(s[i])
  {
    seq(|s|, i requires 0 <= i < |s| => ByteOf(s[i]))
  }

  function OnionChecksum(lib: GoLibrary, key: seq<byte>): (byte, byte) {
    lib.digest(BytesOf(CHECKSUM_PREFIX) + key + [ONION_VERSION])
  }

  function Raw(lib: GoLibrary, key: seq<byte>): seq<byte> {
    var sum := OnionChecksum(lib, key);
    key + [sum.0, sum.1, ONION_VERSION]
  }

  function OnionID(lib: GoLibrary, key: seq<byte>): Result<string, AddressError> {
    if |key| != PUBLIC_KEY_SIZE then Err(BadKeySize(|key|))
    else Ok(ToLower(lib, EncodeToString(Raw(lib, key))))
  }

  function PublicKey(lib: GoLibrary, id: string): Result<seq<byte>, AddressError> {
    var bare := TrimSuffix(ToLower(lib, TrimSpace(lib, id)), SUFFIX);
    match DecodeString(lib, ToUpper(lib, bare))
    case None => Err(Malformed)
    case Some(raw) =>
      if |raw| != 35 then Err(BadLength(|raw|))
      else if raw[34] != ONION_VERSION then Err(BadVersion(raw[34]))
      else if (raw[32], raw[33]) != OnionChecksum(lib, raw[..32]) then Err(BadChecksum)
      else Ok(raw[..32])
  }

  /** `OnionIDFromPublicKey`: the 35-byte buffer is filled in place. */
  method OnionIDFromPublicKey(lib: GoLibrary, key: seq<byte>) returns (r: Result<string, AddressError>)
    ensures r == OnionID(lib, key)
  {
    if |key| != PUBLIC_KEY_SIZE {
      return Err(BadKeySize(|key|));
    }
    var raw := new byte[35](i => 0);
    for i := 0 to 32
      invariant raw[..i] == key[..i]
    {
      raw[i] := key[i];
    }
    var sum := OnionChecksum(lib, key);
    raw[32], raw[33] := sum.0, sum.1;
    raw[34] := ONION_VERSION;
    assert raw[..] == Raw(lib, key);
    r := Ok(ToLower(lib, EncodeToString(raw[..])));
  }

  // ----- Text lemmas -----

  predicate AllSpace(lib: GoLibrary, s: string) {
    forall i :: 0 <= i < |s| ==> IsSpace(lib, s[i])
  }

  /** The ASCII white space: tab, line feed, vertical tab, form feed, carriage return and the blank. */
  lemma AsciiSpaces(lib: GoLibrary, c: char)
    requires c as int < 128
    ensures IsSpace(lib, c) <==> c as int in {9, 10, 11, 12, 13, 32}
  {
    if IsSpace(lib, c) && c != ' ' {
      assert c as int in [9, 10, 11, 12, 13];
    }
  }

  lemma {:induction false} TrimLeftDrops(lib: GoLibrary, w: string, m: string)
    requires AllSpace(lib, w) && (m != [] ==> !IsSpace(lib, m[0]))
    ensures TrimLeft(lib, w + m) == m
    decreases |w|
  {
    if w == [] {
      assert w + m == m;
    } else {
      assert (w + m)[1..] == w[1..] + m;
      TrimLeftDrops(lib, w[1..], m);
    }
  }

  lemma {:induction false} TrimRightDrops(lib: GoLibrary, m: string, w: string)
    requires AllSpace(lib, w) && (m != [] ==> !IsSpace(lib, Last(m)))
    ensures TrimRight(lib, m + w) == m
    decreases |w|
  {
    if w == [] {
      assert m + w == m;
    } else {
      assert Init(m + w) == m + Init(w);
      TrimRightDrops(lib, m, Init(w));
    }
  }

  lemma TrimSpaceDrops(lib: GoLibrary, before: string, m: string, after: string)
    requires AllSpace(lib, before) && AllSpace(lib, after)
    requires m != [] && !IsSpace(lib, m[0]) && !IsSpace(lib, Last(m))
    ensures TrimSpace(lib, before + m + after) == m
  {
    assert before + m + after == before + (m + after);
    TrimLeftDrops(lib, before, m + after);
    TrimRightDrops(lib, m, after);
  }

  /** `v` spells the lower-case ASCII text `s` in any mixture of cases. */
  predicate CaseVariant(v: string, s: string) {
    |v| == |s| && forall i :: 0 <= i < |s| ==>
      v[i] == s[i] || ('a' <= s[i] <= 'z' && v[i] == (s[i] as int - 32) as char)
  }

  /** Lower-case base32 text. */
  predicate LowerAlphabet(s: string) {
    forall i :: 0 <= i < |s| ==> 'a' <= s[i] <= 'z' || '2' <= s[i] <= '7'
  }

  /** Text over the alphabet in any mixture of cases. */
  predicate AnyCaseAlphabet(s: string) {
    forall i :: 0 <= i < |s| ==> 'a' <= s[i] <= 'z' || InAlphabet(s[i])
  }

  lemma CharsAreLowered(lib: GoLibrary, symbols: seq<nat>)
    requires Fit(symbols, 5)
    ensures forall i :: 0 <= i < |symbols| ==> InAlphabet(Chars(symbols)[i])
    ensures Symbols(Chars(symbols)) == symbols
    ensures LowerAlphabet(ToLower(lib, Chars(symbols)))
    ensures ToUpper(lib, ToLower(lib, Chars(symbols))) == Chars(symbols)
  {
  }

  lemma SymbolsBack(s: string)
    requires forall i :: 0 <= i < |s| ==> InAlphabet(s[i])
    ensures Chars(Symbols(s)) == s
  {
  }

  // ----- Round trips -----

  /** Every printed id has 56 characters of the lower-case alphabet and ends in 'd'. */
  lemma PrintedShape(lib: GoLibrary, key: seq<byte>)
    requires |key| == PUBLIC_KEY_SIZE
    ensures var id := OnionID(lib, key);
            id.Ok? && |id.value| == 56 && LowerAlphabet(id.value) && Last(id.value) == 'd'
  {
    var raw := Raw(lib, key);
    WholeSymbols(raw);
    LastSymbol(raw);
    DecodeEncode(raw, 5);
    CharsAreLowered(lib, Encode(raw, 5));
    LastChar(lib, Encode(raw, 5));
  }

  /** 35 bytes are 56 symbols with nothing left over. */
  lemma WholeSymbols(raw: seq<byte>)
    requires |raw| == 35
    ensures |Encode(raw, 5)| == 56 && Encode(raw, 5) == Pack(Unpack(raw, 8), 5)
  {
    var bits := Unpack(raw, 8);
    UnpackLength(raw, 8);
    PackLength(bits, 5);
    assert Padding(bits, 5) == [] && bits + [] == bits;
  }

  lemma LastChar(lib: GoLibrary, symbols: seq<nat>)
    requires Fit(symbols, 5) && symbols != [] && Last(symbols) == 3
    ensures Last(ToLower(lib, Chars(symbols))) == 'd'
  {
  }

  /** The version byte fixes the last five bits. */
  lemma LastSymbol(raw: seq<byte>)
    requires |raw| == 35 && raw[34] == ONION_VERSION
    ensures Pack(Unpack(raw, 8), 5) != [] && Last(Pack(Unpack(raw, 8), 5)) == 3
  {
    var bits := Unpack(raw, 8);
    assert raw == raw[..34] + [raw[34]];
    UnpackConcat(raw[..34], [raw[34]], 8);
    UnpackLength(raw, 8);
    var head, low := bits[..275], bits[275..];
    LowBitsOfThree();
    assert Unpack([raw[34]], 8) == BitsOf(3, 8);
    assert low == [false, false, false, true, true];
    assert bits == head + low;
    PackLength(head, 5);
    PackConcat(head, low, 5);
    SmallValue();
    assert low[..5] == low && low[5..] == [];
    assert Pack(low, 5) == [Value(low)] + Pack([], 5);
  }

  lemma LowBitsOfThree()
    ensures BitsOf(3, 8) == [false, false, false, false, false, false, true, true]
  {
  }

  lemma SmallValue()
    ensures Value([false, false, false, true, true]) == 3
  {
    var v := [false, false, false, true, true];
    assert v[..4] == [false, false, false, true] && v[..4][..3] == [false, false, false];
    assert v[..4][..3][..2] == [false, false] && v[..4][..3][..2][..1] == [false];
    assert Value([false]) == 0;
    assert Value([false, false]) == 0;
  }

  /** Parsing a printed id, however it is cased, padded with white space or suffixed, recovers the
      key. */
  lemma ParsePrinted(lib: GoLibrary, key: seq<byte>, before: string, v: string, suffix: string, after: string)
    requires |key| == PUBLIC_KEY_SIZE
    requires CaseVariant(v, OnionID(lib, key).value)
    requires suffix == "" || CaseVariant(suffix, SUFFIX)
    requires AllSpace(lib, before) && AllSpace(lib, after)
    ensures PublicKey(lib, before + (v + suffix) + after) == Ok(key)
  {
    PrintedShape(lib, key);
    var id, raw := OnionID(lib, key).value, Raw(lib, key);
    var m := v + suffix;
    TrimSpaceDrops(lib, before, m, after);
    assert ToLower(lib, v) == id;
    assert ToLower(lib, m) == id + ToLower(lib, suffix);
    if suffix == "" {
      assert id + ToLower(lib, suffix) == id;
      assert id[56 - 6] != '.';
      assert id[|id| - |SUFFIX|..][0] == id[50];
    } else {
      assert ToLower(lib, suffix) == SUFFIX;
    }
    assert TrimSuffix(ToLower(lib, m), SUFFIX) == id;
    DecodeEncode(raw, 5);
    CharsAreLowered(lib, Encode(raw, 5));
    assert raw[..32] == key;
  }

  /** An accepted 56-character id over the alphabet prints back as its own lower-case form, so ids
      and keys correspond one to one. */
  lemma PrintParsed(lib: GoLibrary, id: string)
    requires |id| == 56 && AnyCaseAlphabet(id) && PublicKey(lib, id).Ok?
    ensures var key := PublicKey(lib, id).value;
            |key| == PUBLIC_KEY_SIZE && OnionID(lib, key) == Ok(ToLower(lib, id))
  {
    var text := Normalised(lib, id);
    var symbols := Symbols(text);
    var raw := Decode(symbols, 5);
    NoSlack(symbols);
    EncodeDecode(symbols, 5);
    SymbolsBack(text);
    assert raw == Raw(lib, raw[..32]);
    assert ToLower(lib, text) == ToLower(lib, id);
  }

  lemma NoSlack(symbols: seq<nat>)
    requires |symbols| == 56
    ensures Slack(symbols, 5) == [] && Zeros(0) == []
  {
    UnpackLength(symbols, 5);
    PackLength(Unpack(symbols, 5), 8);
  }

  /** A 56-character id over the alphabet reaches the decoder as its upper-case form. */
  lemma Normalised(lib: GoLibrary, id: string) returns (text: string)
    requires |id| == 56 && AnyCaseAlphabet(id)
    ensures text == ToUpper(lib, TrimSuffix(ToLower(lib, TrimSpace(lib, id)), SUFFIX))
    ensures |text| == 56 && forall i :: 0 <= i < |text| ==> InAlphabet(text[i])
    ensures text == ToUpper(lib, id)
  {
    assert [] + id + [] == id;
    TrimSpaceDrops(lib, [], id, []);
    var low := ToLower(lib, id);
    assert low[50] != '.' && low[|low| - |SUFFIX|..][0] == low[50];
    text := ToUpper(lib, low);
    assert text == ToUpper(lib, id);
  }

  /** Whatever the hash: two accepted ids that agree on their first 52 characters agree on all 56, so
      an id changed only in its last four characters is rejected. */
  lemma LastFourAreDetermined(lib: GoLibrary, id: string, other: string)
    requires |id| == 56 && |other| == 56 && AnyCaseAlphabet(id) && AnyCaseAlphabet(other)
    requires PublicKey(lib, id).Ok? && ToLower(lib, id)[..52] == ToLower(lib, other)[..52]
    requires ToLower(lib, id) != ToLower(lib, other)
    ensures PublicKey(lib, other).Err?
  {
    var text := Normalised(lib, id);
    var text' := Normalised(lib, other);
    forall i | 0 <= i < 52
      ensures text[i] == text'[i]
    {
      assert ToLower(lib, id)[..52][i] == ToLower(lib, other)[..52][i];
    }
    SamePrefixSameKey(Symbols(text), Symbols(text'));
    if PublicKey(lib, other).Ok? {
      PrintParsed(lib, id);
      PrintParsed(lib, other);
    }
  }

  /** The first 52 symbols carry the whole key. */
  lemma SamePrefixSameKey(a: seq<nat>, b: seq<nat>)
    requires |a| == 56 && |b| == 56 && a[..52] == b[..52]
    ensures |Decode(a, 5)| == 35 && |Decode(b, 5)| == 35 && Decode(a, 5)[..32] == Decode(b, 5)[..32]
  {
    KeyBits(a);
    KeyBits(b);
  }

  lemma KeyBits(a: seq<nat>)
    requires |a| == 56
    ensures |Unpack(a[..52], 5)| == 260 && |Decode(a, 5)| == 35
    ensures Decode(a, 5)[..32] == Pack(Unpack(a[..52], 5)[..256], 8)
  {
    var head, bits := Unpack(a[..52], 5), Unpack(a, 5);
    assert a == a[..52] + a[52..];
    UnpackConcat(a[..52], a[52..], 5);
    UnpackLength(a[..52], 5);
    UnpackLength(a, 5);
    PackLength(bits, 8);
    var key, rest := bits[..256], bits[256..];
    assert key == head[..256] && bits == key + rest;
    PackLength(key, 8);
    PackConcat(key, rest, 8);
  }

  // ----- What is hashed -----

  /** ".onion checksum", the key and the version byte 3, as section 6 of rend-spec-v3 has them. */
  function Preimage(key: seq<byte>): seq<byte> {
    [0x2e, 0x6f, 0x6e, 0x69, 0x6f, 0x6e, 0x20, 0x63, 0x68, 0x65, 0x63, 0x6b, 0x73, 0x75, 0x6d] + key + [3]
  }

  lemma ChecksumPreimage(lib: GoLibrary, key: seq<byte>)
    ensures OnionChecksum(lib, key) == lib.digest(Preimage(key))
  {
    assert BytesOf(CHECKSUM_PREFIX) ==
           [0x2e, 0x6f, 0x6e, 0x69, 0x6f, 0x6e, 0x20, 0x63, 0x68, 0x65, 0x63, 0x6b, 0x73, 0x75, 0x6d];
  }

  /** The bytes a 56-character id over the alphabet stands for. */
  function IdBytes(id: string): (r: seq<byte>)
    requires |id| == 56 && AnyCaseAlphabet(id)
    ensures |r| == 35
  {
    var symbols := seq(56, i requires 0 <= i < 56 =>
      if 'a' <= id[i] <= 'z' then id[i] as int - 97 else if id[i] >= 'A' then id[i] as int - 65 else id[i] as int - 24);
    UnpackLength(symbols, 5);
    PackLength(Unpack(symbols, 5), 8);
    Decode(symbols, 5)
  }

  lemma IdBytesDecoded(lib: GoLibrary, id: string)
    requires |id| == 56 && AnyCaseAlphabet(id)
    ensures forall i :: 0 <= i < 56 ==> InAlphabet(ToUpper(lib, id)[i])
    ensures Decode(Symbols(ToUpper(lib, id)), 5) == IdBytes(id)
  {
    var symbols := seq(56, i requires 0 <= i < 56 =>
      if 'a' <= id[i] <= 'z' then id[i] as int - 97 else if id[i] >= 'A' then id[i] as int - 65 else id[i] as int - 24);
    assert Symbols(ToUpper(lib, id)) == symbols;
  }

  /** Of the 35 bytes of a printed id the first 32 are the key, the next two the digest of the pre-image,
      and the last is 3. */
  lemma PrintedBytes(lib: GoLibrary, key: seq<byte>)
    requires |key| == 32
    ensures OnionID(lib, key).Ok?
    ensures var id, sum := OnionID(lib, key).value, lib.digest(Preimage(key));
            |id| == 56 && AnyCaseAlphabet(id) && IdBytes(id) == key + [sum.0, sum.1, 3]
  {
    PrintedShape(lib, key);
    ChecksumPreimage(lib, key);
    var raw := Raw(lib, key);
    DecodeEncode(raw, 5);
    CharsAreLowered(lib, Encode(raw, 5));
    IdBytesDecoded(lib, OnionID(lib, key).value);
  }

  /** A 56-character id over the alphabet is accepted exactly when its last byte is 3 and the two before it
      are the digest of the pre-image of its first 32, which are then the key. */
  lemma AcceptedIff(lib: GoLibrary, id: string)
    requires |id| == 56 && AnyCaseAlphabet(id)
    ensures var raw := IdBytes(id);
            PublicKey(lib, id) ==
            if raw[34] != 3 then Err(BadVersion(raw[34]))
            else if (raw[32], raw[33]) != lib.digest(Preimage(raw[..32])) then Err(BadChecksum)
            else Ok(raw[..32])
  {
    var text := Normalised(lib, id);
    IdBytesDecoded(lib, id);
    ChecksumPreimage(lib, IdBytes(id)[..32]);
  }

  /** Two digests print one key alike exactly when they agree on its pre-image. */
  lemma SameIdIffSameDigest(lib: GoLibrary, other: GoLibrary, key: seq<byte>)
    requires |key| == 32
    ensures OnionID(lib, key).Ok? && OnionID(other, key).Ok?
    ensures OnionID(lib, key) == OnionID(other, key) <==> lib.digest(Preimage(key)) == other.digest(Preimage(key))
  {
    PrintedBytes(lib, key);
    PrintedBytes(other, key);
    ChecksumPreimage(lib, key);
    ChecksumPreimage(other, key);
    if lib.digest(Preimage(key)) == other.digest(Preimage(key)) {
      LowerAlike(lib, other, Raw(lib, key));
    } else {
      var a, b := IdBytes(OnionID(lib, key).value), IdBytes(OnionID(other, key).value);
      assert (a[32], a[33]) == lib.digest(Preimage(key)) && (b[32], b[33]) == other.digest(Preimage(key));
    }
  }

  lemma LowerAlike(lib: GoLibrary, other: GoLibrary, raw: seq<byte>)
    ensures ToLower(lib, EncodeToString(raw)) == ToLower(other, EncodeToString(raw))
  {
    DecodeEncode(raw, 5);
    CharsAreLowered(lib, Encode(raw, 5));
  }

  /** The alphabet of section 6 of RFC 4648. */
  lemma Base32Alphabet(v: nat)
    requires v < 32
    ensures SymbolChar(v) == "ABCDEFGHIJKLMNOPQRSTUVWXYZ234567"[v]
  {
  }
}
