/** Regrouping bits: the core of base32 and base64 (sections 4 and 6 of RFC 4648). */
module Bits {
  import opened Sequences


  type byte = x: int | 0 <= x < 256

  function Pow2(k: nat): (r: nat)
    ensures r > 0
  {
    if k == 0 then 1 else 2 * Pow2(k - 1)
  }

  /** The `k` low bits of `x`, most significant first. */
  function BitsOf(x: nat, k: nat): (r: seq<bool>)
    ensures |r| == k
  {
    if k == 0 then [] else BitsOf(x / 2, k - 1) + [x % 2 == 1]
  }

  /** The number a string of bits spells, most significant first. */
  function Value(bits: seq<bool>): nat
    decreases |bits|
  {
    if bits == [] then 0
    else 2 * Value(bits[..|bits| - 1]) + if bits[|bits| - 1] then 1 else 0
  }

  lemma {:induction false} ValueBound(bits: seq<bool>)
    ensures Value(bits) < Pow2(|bits|)
    decreases |bits|
  {
    if bits != [] {
      ValueBound(bits[..|bits| - 1]);
    }
  }

  lemma {:induction false} ValueOfBits(x: nat, k: nat)
    requires x < Pow2(k)
    ensures Value(BitsOf(x, k)) == x
    decreases k
  {
    if k > 0 {
      ValueOfBits(x / 2, k - 1);
      var b := BitsOf(x, k);
      assert b[..k - 1] == BitsOf(x / 2, k - 1);
    }
  }

  lemma {:induction false} BitsOfValue(bits: seq<bool>)
    ensures BitsOf(Value(bits), |bits|) == bits
    decreases |bits|
  {
    if bits != [] {
      BitsOfValue(bits[..|bits| - 1]);
    }
  }

  // ----- Runs of symbols -----

  /** The bits of a run of `k`-bit symbols. */
  function Unpack(xs: seq<nat>, k: nat): seq<bool>
    decreases |xs|
  {
    if xs == [] then [] else BitsOf(xs[0], k) + Unpack(xs[1..], k)
  }

  /** The whole `k`-bit symbols in a run of bits. */
  function Pack(bits: seq<bool>, k: nat): seq<nat>
    requires k > 0
    decreases |bits|
  {
    if |bits| < k then [] else [Value(bits[..k])] + Pack(bits[k..], k)
  }

  /** The bits left over after the whole symbols. */
  function Tail(bits: seq<bool>, k: nat): seq<bool>
    requires k > 0
    decreases |bits|
  {
    if |bits| < k then bits else Tail(bits[k..], k)
  }

  ghost predicate Fit(xs: seq<nat>, k: nat) {
    forall i :: 0 <= i < |xs| ==> xs[i] < Pow2(k)
  }

  /** One symbol off the front. */
  lemma PackStep(bits: seq<bool>, k: nat)
    requires 0 < k <= |bits|
    ensures Pack(bits, k) == [Value(bits[..k])] + Pack(bits[k..], k)
    ensures Tail(bits, k) == Tail(bits[k..], k)
  {
  }

  lemma {:induction false} PackLength(bits: seq<bool>, k: nat)
    requires k > 0
    ensures |Pack(bits, k)| * k + |Tail(bits, k)| == |bits|
    ensures |Tail(bits, k)| < k
    decreases |bits|
  {
    if |bits| >= k {
      var rest := bits[k..];
      PackStep(bits, k);
      PackLength(rest, k);
      var n := |Pack(rest, k)|;
      assert (n + 1) * k == n * k + k;
    }
  }

  lemma {:induction false} UnpackLength(xs: seq<nat>, k: nat)
    ensures |Unpack(xs, k)| == |xs| * k
    decreases |xs|
  {
    if xs != [] {
      UnpackLength(xs[1..], k);
      assert |xs| * k == k + |xs[1..]| * k;
    }
  }

  lemma UnpackCons(x: nat, xs: seq<nat>, k: nat)
    ensures Unpack([x] + xs, k) == BitsOf(x, k) + Unpack(xs, k)
  {
  }

  lemma {:induction false} PackFits(bits: seq<bool>, k: nat)
    requires k > 0
    ensures Fit(Pack(bits, k), k)
    decreases |bits|
  {
    if |bits| >= k {
      ValueBound(bits[..k]);
      PackFits(bits[k..], k);
    }
  }

  lemma {:induction false} UnpackConcat(a: seq<nat>, b: seq<nat>, k: nat)
    ensures Unpack(a + b, k) == Unpack(a, k) + Unpack(b, k)
    decreases |a|
  {
    if a == [] {
      assert a + b == b;
    } else {
      assert (a + b)[1..] == a[1..] + b;
      UnpackConcat(a[1..], b, k);
    }
  }

  lemma {:induction false} PackConcat(a: seq<bool>, b: seq<bool>, k: nat)
    requires k > 0 && Tail(a, k) == []
    ensures Pack(a + b, k) == Pack(a, k) + Pack(b, k)
    decreases |a|
  {
    if |a| < k {
      assert a + b == b;
    } else {
      var first, rest := a[..k], a[k..];
      PackStep(a, k);
      PackStep(a + b, k);
      assert (a + b)[..k] == first && (a + b)[k..] == rest + b;
      PackConcat(rest, b, k);
      ConcatAssoc([Value(first)], Pack(rest, k), Pack(b, k));
    }
  }

  lemma PackFirst(first: seq<bool>, rest: seq<bool>, k: nat)
    requires k > 0 && |first| == k
    ensures Pack(first + rest, k) == [Value(first)] + Pack(rest, k)
    ensures Tail(first + rest, k) == Tail(rest, k)
  {
  }

  /** Packing inverts unpacking, ignoring less than a symbol of trailing bits. */
  lemma {:induction false} PackUnpack(xs: seq<nat>, k: nat, tail: seq<bool>)
    requires k > 0 && Fit(xs, k) && |tail| < k
    ensures Pack(Unpack(xs, k) + tail, k) == xs
    ensures Tail(Unpack(xs, k) + tail, k) == tail
    decreases |xs|
  {
    if xs == [] {
      assert Unpack(xs, k) + tail == tail;
    } else {
      var rest := Unpack(xs[1..], k) + tail;
      assert Unpack(xs, k) + tail == BitsOf(xs[0], k) + rest;
      ValueOfBits(xs[0], k);
      PackUnpack(xs[1..], k, tail);
      PackFirst(BitsOf(xs[0], k), rest, k);
    }
  }

  /** Unpacking inverts packing, up to the bits left over. */
  lemma {:induction false} UnpackPack(bits: seq<bool>, k: nat)
    requires k > 0
    ensures Unpack(Pack(bits, k), k) + Tail(bits, k) == bits
    decreases |bits|
  {
    if |bits| >= k {
      var first, rest := bits[..k], bits[k..];
      assert bits == first + rest;
      UnpackPack(rest, k);
      BitsOfValue(first);
      PackFirst(first, rest, k);
      UnpackCons(Value(first), Pack(rest, k), k);
      assert Unpack(Pack(bits, k), k) + Tail(bits, k) == first + (Unpack(Pack(rest, k), k) + Tail(rest, k));
    }
  }

  // ----- Encoding bytes -----

  function Zeros(n: nat): (r: seq<bool>)
    ensures |r| == n
  {
    seq(n, i => false)
  }

  /** Zero bits up to the next whole symbol. */
  function Padding(bits: seq<bool>, k: nat): seq<bool>
    requires k > 0
  {
    var n := |Tail(bits, k)|;
    if n == 0 || n > k then [] else Zeros(k - n)
  }

  function Encode(bytes: seq<byte>, k: nat): seq<nat>
    requires k > 0
  {
    var bits := Unpack(bytes, 8);
    Pack(bits + Padding(bits, k), k)
  }

  function Decode(symbols: seq<nat>, k: nat): (r: seq<byte>)
    requires k > 0
  {
    PackFits(Unpack(symbols, k), 8);
    var bytes := Pack(Unpack(symbols, k), 8);
    assert Pow2(8) == 256;
    assert forall i :: 0 <= i < |bytes| ==> bytes[i] < 256;
    bytes
  }

  /** The bits of the last symbol that are beyond the last whole byte. */
  function Slack(symbols: seq<nat>, k: nat): seq<bool> {
    Tail(Unpack(symbols, k), 8)
  }

  lemma {:induction false} PaddingCompletes(bits: seq<bool>, k: nat, zeros: seq<bool>)
    requires k > 0 && |zeros| == (if Tail(bits, k) == [] then 0 else k - |Tail(bits, k)|)
    ensures Tail(bits + zeros, k) == []
    decreases |bits|
  {
    PackLength(bits, k);
    if |bits| < k {
      assert Tail(bits, k) == bits;
      if bits == [] {
        assert bits + zeros == [];
      } else {
        assert |bits + zeros| == k && (bits + zeros)[k..] == [];
      }
    } else {
      assert (bits + zeros)[k..] == bits[k..] + zeros;
      PaddingCompletes(bits[k..], k, zeros);
    }
  }

  lemma BytesFit(bytes: seq<byte>)
    ensures Fit(bytes, 8)
  {
  }

  /** For every symbol width up to eight bits, decoding inverts encoding. */
  lemma DecodeEncode(bytes: seq<byte>, k: nat)
    requires 0 < k <= 8
    ensures Decode(Encode(bytes, k), k) == bytes
    ensures Fit(Encode(bytes, k), k)
    ensures Slack(Encode(bytes, k), k) == Padding(Unpack(bytes, 8), k)
  {
    var bits := Unpack(bytes, 8);
    var pad := Padding(bits, k);
    PackLength(bits, k);
    PaddingCompletes(bits, k, pad);
    UnpackPack(bits + pad, k);
    assert Unpack(Encode(bytes, k), k) == bits + pad;
    BytesFit(bytes);
    PackUnpack(bytes, 8, pad);
    PackFits(bits + pad, k);
  }

  lemma {:induction false} TailBefore(a: seq<bool>, t: seq<bool>, k: nat)
    requires k > 0 && Tail(a + t, k) == [] && |t| < k
    ensures |Tail(a, k)| == if t == [] then 0 else k - |t|
    decreases |a|
  {
    if |a| < k {
      if |a + t| >= k {
        assert |(a + t)[k..]| < k;
      }
    } else {
      assert (a + t)[k..] == a[k..] + t;
      TailBefore(a[k..], t, k);
    }
  }

  /** Encoding inverts decoding for symbols whose slack is short and zero. */
  lemma EncodeDecode(symbols: seq<nat>, k: nat)
    requires 0 < k <= 8 && Fit(symbols, k)
    requires |Slack(symbols, k)| < k && Slack(symbols, k) == Zeros(|Slack(symbols, k)|)
    ensures Encode(Decode(symbols, k), k) == symbols
  {
    var bits, t := Unpack(symbols, k), Slack(symbols, k);
    var bytes := Decode(symbols, k);
    UnpackPack(bits, 8);
    var whole := Unpack(bytes, 8);
    assert whole + t == bits;
    PackUnpack(symbols, k, []);
    assert bits + [] == bits;
    TailBefore(whole, t, k);
    PackLength(whole, k);
    assert Padding(whole, k) == t;
  }
}
