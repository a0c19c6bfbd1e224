/** The base64 key blob on its way through both languages: `Listen` encodes it, `keypair_for`
    decodes and echoes it, and `Listen` decodes the echo (internal/arti/onion.go,
    rust/arti-ffi/src/onion.rs; section 4 of RFC 4648). */
module KeyBlob {
  import opened Sequences
  import opened Bits

  const PRIVATE_KEY_SIZE: nat := 64

  // ----- Base64 -----

  predicate InAlphabet(c: char) {
    'A' <= c <= 'Z' || 'a' <= c <= 'z' || '0' <= c <= '9' || c == '+' || c == '/'
  }

  function SymbolChar(v: nat): (c: char)
    requires v < 64
    ensures InAlphabet(c) && c != '='
  {
    if v < 26 then (v + 65) as char
    else if v < 52 then (v + 71) as char
    else if v < 62 then (v - 4) as char
    else if v == 62 then '+'
    else '/'
  }

  function CharSymbol(c: char): (v: nat)
    requires InAlphabet(c)
    ensures v < 64 && SymbolChar(v) == c
  {
    if 'A' <= c <= 'Z' then c as int - 65
    else if 'a' <= c <= 'z' then c as int - 71
    else if '0' <= c <= '9' then c as int + 4
    else if c == '+' then 62
    else 63
  }

  function Chars(symbols: seq<nat>): (r: string)
    requires Fit(symbols, 6)
    ensures |r| == |symbols| && forall i :: 0 <= i < |r| ==> InAlphabet(r[i])
  {
    assert Pow2(6) == 64;
    seq(|symbols|, i requires 0 <= i < |symbols| => SymbolChar(symbols[i]))
  }

  function Symbols(s: string): (r: seq<nat>)
    requires forall i :: 0 <= i < |s| ==> InAlphabet(s[i])
    ensures |r| == |s| && Fit(r, 6)
  {
    assert Pow2(6) == 64;
    seq(|s|, i requires 0 <= i < |s| => CharSymbol(s[i]))
  }

  /** `=` up to a multiple of four. */
  function Pads(n: nat): string {
    if n % 4 == 2 then "==" else if n % 4 == 3 then "=" else ""
  }

  function Base64(bytes: seq<byte>): string {
    DecodeEncode(bytes, 6);
    var s := Chars(Encode(bytes, 6));
    s + Pads(|s|)
  }

  function StripPads(s: string): string
    decreases |s|
  {
    if s != [] && Last(s) == '=' then StripPads(Init(s)) else s
  }

  /** The strict decoder: canonical padding, and no stray bits after the last byte. */
  function Unbase64(s: string): Option<seq<byte>> {
    var body := StripPads(s);
    if !(forall i :: 0 <= i < |body| ==> InAlphabet(body[i])) then None
    else if |body| % 4 == 1 || s != body + Pads(|body|) then None
    else
      var symbols := Symbols(body);
      if Slack(symbols, 6) != Zeros(|Slack(symbols, 6)|) then None else Some(Decode(symbols, 6))
  }

  lemma {:induction false} StripPadsBody(body: string, pads: string)
    requires forall i :: 0 <= i < |body| ==> InAlphabet(body[i])
    requires forall i :: 0 <= i < |pads| ==> pads[i] == '='
    ensures StripPads(body + pads) == body
    decreases |pads|
  {
    if pads == [] {
      assert body + pads == body;
    } else {
      assert Init(body + pads) == body + Init(pads);
      StripPadsBody(body, Init(pads));
    }
  }

  lemma CharsBack(symbols: seq<nat>)
    requires Fit(symbols, 6)
    ensures Symbols(Chars(symbols)) == symbols
  {
  }

  lemma SymbolsBack(s: string)
    requires forall i :: 0 <= i < |s| ==> InAlphabet(s[i])
    ensures Chars(Symbols(s)) == s
  {
  }

  /** The number of symbols an encoding can have. */
  lemma EncodedLength(bytes: seq<byte>)
    ensures |Encode(bytes, 6)| % 4 != 1
    ensures |Slack(Encode(bytes, 6), 6)| < 6
  {
    var bits := Unpack(bytes, 8);
    UnpackLength(bytes, 8);
    PackLength(bits, 6);
    PackLength(bits + Padding(bits, 6), 6);
    PaddingCompletes(bits, 6, Padding(bits, 6));
    DecodeEncode(bytes, 6);
  }

  /** Decoding inverts encoding, for every byte string. */
  lemma DecodeInvertsEncode(bytes: seq<byte>)
    ensures Unbase64(Base64(bytes)) == Some(bytes)
  {
    DecodeEncode(bytes, 6);
    var symbols := Encode(bytes, 6);
    var body := Chars(symbols);
    CharsBack(symbols);
    EncodedLength(bytes);
    StripPadsBody(body, Pads(|body|));
  }

  lemma ReencodeBody(body: string)
    requires forall i :: 0 <= i < |body| ==> InAlphabet(body[i])
    requires |body| % 4 != 1
    requires var slack := Slack(Symbols(body), 6); slack == Zeros(|slack|)
    ensures Encode(Decode(Symbols(body), 6), 6) == Symbols(body) && Chars(Symbols(body)) == body
  {
    ShortSlack(Symbols(body));
    EncodeDecode(Symbols(body), 6);
    SymbolsBack(body);
  }

  /** A whole number of bytes leaves at most four bits of the last symbol over. */
  lemma ShortSlack(symbols: seq<nat>)
    requires |symbols| % 4 != 1
    ensures |Slack(symbols, 6)| < 6
  {
    UnpackLength(symbols, 6);
    PackLength(Unpack(symbols, 6), 8);
    Remainder(|symbols|, |Pack(Unpack(symbols, 6), 8)|, |Slack(symbols, 6)|);
  }

  lemma Remainder(n: nat, bytes: nat, left: nat)
    requires n % 4 != 1 && bytes * 8 + left == n * 6 && left < 8
    ensures left < 6
  {
  }

  /** The strict decoder accepts only what the encoder produces. */
  lemma EncodeInvertsDecode(s: string)
    requires Unbase64(s).Some?
    ensures Base64(Unbase64(s).value) == s
  {
    ReencodeBody(StripPads(s));
  }

  lemma Capitals(v: nat)
    requires v < 26
    ensures "ABCDEFGHIJKLMNOPQRSTUVWXYZ"[v] == (v + 65) as char
  {
  }

  lemma SmallLetters(v: nat)
    requires v < 26
    ensures "abcdefghijklmnopqrstuvwxyz"[v] == (v + 97) as char
  {
  }

  lemma Digits(v: nat)
    requires v < 10
    ensures "0123456789"[v] == (v + 48) as char
  {
  }

  /** The alphabet of section 4 of RFC 4648. */
  lemma Base64Alphabet(v: nat)
    requires v < 64
    ensures SymbolChar(v) == ("ABCDEFGHIJKLMNOPQRSTUVWXYZ" + "abcdefghijklmnopqrstuvwxyz" + "0123456789" + "+/")[v]
  {
    if v < 26 {
      Capitals(v);
    } else if v < 52 {
      SmallLetters(v - 26);
    } else if v < 62 {
      Digits(v - 52);
    }
  }

  /** An encoding is padded with `=` to a whole number of quanta. */
  lemma Base64Shape(bytes: seq<byte>)
    ensures |Base64(bytes)| == (|bytes| + 2) / 3 * 4
    ensures forall i :: 0 <= i < |Base64(bytes)| ==> (Base64(bytes)[i] == '=' <==> i >= (|bytes| * 4 + 2) / 3)
  {
    DecodeEncode(bytes, 6);
    EncodedCount(bytes);
    PadsComplete(|bytes|);
    BodyAndPads(Chars(Encode(bytes, 6)), Pads((|bytes| * 4 + 2) / 3));
  }

  lemma PadsComplete(n: nat)
    ensures var body := (n * 4 + 2) / 3; body + |Pads(body)| == (n + 2) / 3 * 4
  {
  }

  lemma BodyAndPads(body: string, pads: string)
    requires forall i :: 0 <= i < |body| ==> InAlphabet(body[i])
    requires forall i :: 0 <= i < |pads| ==> pads[i] == '='
    ensures forall i :: 0 <= i < |body + pads| ==> ((body + pads)[i] == '=' <==> i >= |body|)
  {
  }

  lemma EncodedCount(bytes: seq<byte>)
    ensures |Encode(bytes, 6)| == (|bytes| * 4 + 2) / 3
  {
    var bits := Unpack(bytes, 8);
    UnpackLength(bytes, 8);
    PackLength(bits, 6);
    PackLength(bits + Padding(bits, 6), 6);
    PaddingCompletes(bits, 6, Padding(bits, 6));
  }

  // ----- The key path -----

  /** The Rust side decides which 64-byte strings are usable secrets; what Go's lenient decoder does
      with text the strict one refuses is not claimed. */
  datatype Keys = Keys(usable: seq<byte> -> bool, lenient: string -> Option<seq<byte>>)

  datatype KeyError =
    | BadSize(size: nat) | MalformedKey | WrongLength | NotASecret
    | UnsupportedAlgorithm | UnsupportedType | MalformedResponse

  function GoDecode(keys: Keys, s: string): Option<seq<byte>> {
    if Unbase64(s).Some? then Unbase64(s) else keys.lenient(s)
  }

  /** `keypair_for`: the key material to use, and the blob to echo. `made` is the generated secret. */
  function KeypairFor(
    keys: Keys, keyType: string, blob: string, made: seq<byte>): Result<(seq<byte>, string), KeyError>
  {
    if keyType == "NEW" then
      if blob == "BEST" || blob == "ED25519-V3" then Ok((made, Base64(made))) else Err(UnsupportedAlgorithm)
    else if keyType == "ED25519-V3" then
      match Unbase64(blob)
      case None => Err(MalformedKey)
      case Some(raw) =>
        if |raw| != PRIVATE_KEY_SIZE then Err(WrongLength)
        else if !keys.usable(raw) then Err(NotASecret)
        else Ok((raw, blob))
    else Err(UnsupportedType)
  }

  /** `Listen`, from the configured key to the key the service reports. The source always asks for
      the key back, so the response carries a blob whenever it is not empty. */
  function ListenKey(keys: Keys, privateKey: Option<seq<byte>>, made: seq<byte>): Result<seq<byte>, KeyError> {
    if privateKey.Some? && |privateKey.value| != PRIVATE_KEY_SIZE then Err(BadSize(|privateKey.value|))
    else
      var (keyType, blob) :=
        if privateKey.Some? then ("ED25519-V3", Base64(privateKey.value)) else ("NEW", "ED25519-V3");
      match KeypairFor(keys, keyType, blob, made)
      case Err(e) => Err(e)
      case Ok((secret, echo)) =>
        if echo != "" then
          match GoDecode(keys, echo)
          case None => Err(MalformedResponse)
          case Some(key) => Ok(key)
        else Ok(if privateKey.Some? then privateKey.value else [])
  }

  lemma KeyTypesDiffer()
    ensures "ED25519-V3" != "NEW"
  {
  }

  /** Which keys the backend takes: a fresh one under either name of the algorithm, or the canonical text of
      64 usable bytes; and what it says of any other type or algorithm. */
  lemma TakenIff(keys: Keys, keyType: string, blob: string, made: seq<byte>)
    ensures var r := KeypairFor(keys, keyType, blob, made);
            && (r.Ok? <==>
                  || (keyType == "NEW" && blob in {"BEST", "ED25519-V3"})
                  || (keyType == "ED25519-V3" && exists raw :: |raw| == 64 && keys.usable(raw) && blob == Base64(raw)))
            && (r == Err(UnsupportedType) <==> keyType !in {"NEW", "ED25519-V3"})
            && (r == Err(UnsupportedAlgorithm) <==> keyType == "NEW" && blob !in {"BEST", "ED25519-V3"})
            && (r.Ok? && keyType == "NEW" ==> r.value == (made, Base64(made)))
  {
    KeyTypesDiffer();
    if Unbase64(blob).Some? {
      EncodeInvertsDecode(blob);
    }
    forall raw | blob == Base64(raw) ensures Unbase64(blob) == Some(raw) {
      DecodeInvertsEncode(raw);
    }
  }

  /** Text that is not base64 at all, and a key of another length or one that is no secret, are told apart. */
  lemma RefusedKey(keys: Keys, blob: string, made: seq<byte>)
    ensures var r := KeypairFor(keys, "ED25519-V3", blob, made);
            && (r == Err(MalformedKey) <==> forall raw :: blob != Base64(raw))
            && (r == Err(WrongLength) <==> exists raw :: blob == Base64(raw) && |raw| != 64)
            && (r == Err(NotASecret) <==> exists raw :: blob == Base64(raw) && |raw| == 64 && !keys.usable(raw))
  {
    KeyTypesDiffer();
    if Unbase64(blob).Some? {
      EncodeInvertsDecode(blob);
    }
    forall raw | blob == Base64(raw) ensures Unbase64(blob) == Some(raw) {
      DecodeInvertsEncode(raw);
    }
  }

  /** A supplied key comes back byte for byte, exactly when it is 64 bytes long and usable. */
  lemma SuppliedKeyIsStable(keys: Keys, key: seq<byte>, made: seq<byte>)
    ensures ListenKey(keys, Some(key), made) ==
            if |key| != 64 then Err(BadSize(|key|))
            else if !keys.usable(key) then Err(NotASecret)
            else Ok(key)
  {
    KeyTypesDiffer();
    DecodeInvertsEncode(key);
  }

  /** A generated key is reported as generated, and importing what was reported gives the same key
      and the same blob: a saved key keeps its address. */
  lemma GeneratedKeyReimports(keys: Keys, made: seq<byte>, later: seq<byte>)
    requires |made| == PRIVATE_KEY_SIZE && keys.usable(made)
    ensures ListenKey(keys, None, made) == Ok(made)
    ensures ListenKey(keys, Some(made), later) == Ok(made)
    ensures KeypairFor(keys, "ED25519-V3", Base64(made), later) == Ok((made, Base64(made)))
  {
    KeyTypesDiffer();
    DecodeInvertsEncode(made);
  }

  /** Whatever blob a caller sends, an accepted one is the canonical encoding of the key it names, so
      echoing the text and re-encoding the bytes are the same thing. */
  lemma EchoIsCanonical(keys: Keys, blob: string, made: seq<byte>)
    requires KeypairFor(keys, "ED25519-V3", blob, made).Ok?
    ensures var (secret, echo) := KeypairFor(keys, "ED25519-V3", blob, made).value;
            |secret| == PRIVATE_KEY_SIZE && echo == blob && blob == Base64(secret)
  {
    KeyTypesDiffer();
    EncodeInvertsDecode(blob);
  }
}
