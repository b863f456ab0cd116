/**
 The byte format the service uses for its tree keys: bincode 1.x with its default
 options, that is, a vector of bytes is an 8-byte little-endian length followed by
 the bytes, a struct is its fields one after the other, and a decoder ignores
 whatever follows the value it was asked for.
 */
module Bincode {
  import opened Jobs

  const LENGTH_BYTES := 8

  function Pow256(width: nat): nat
    ensures Pow256(width) > 0
  {
    if width == 0 then 1 else 256 * Pow256(width - 1)
  }

  /** The byte of a given value. */
  function ByteFor(d: nat): (b: byte)
    requires d < 256
    ensures b as nat == d
  {
    if d == 0 then 0
    else
      var b := ByteFor(d - 1);
      Successor(b);
      b + 1
  }

  lemma Successor(b: byte)
    ensures b as nat < 255 ==> (b + 1) as nat == b as nat + 1
  {
  }

  function Digit(n: nat, i: nat): byte {
    ByteFor(n / Pow256(i) % 256)
  }

  /** Little-endian digits of n in base 256. */
  function EncodeNat(n: nat, width: nat): (bs: Bytes)
    ensures |bs| == width
  {
    seq(width, i requires 0 <= i < width => Digit(n, i))
  }

  function DecodeNat(bs: Bytes): nat {
    if bs == [] then 0 else bs[0] as nat + 256 * DecodeNat(bs[1..])
  }

  lemma DivideTwice(n: nat, m: nat)
    requires m > 0
    ensures n / 256 / m == n / (256 * m)
  {
    var q, r := n / 256, n % 256;
    var a, b := q / m, q % m;
    assert q == a * m + b;
    assert n == a * (256 * m) + (256 * b + r);
    QuotientUnique(n, 256 * m, a, 256 * b + r);
  }

  lemma MulMonotone(a: nat, b: nat, d: nat)
    requires a <= b
    ensures a * d <= b * d
  {
  }

  lemma QuotientUnique(n: nat, d: nat, a: nat, r: nat)
    requires d > 0 && n == a * d + r && r < d
    ensures n / d == a
  {
    var q := n / d;
    assert q * d <= n < (q + 1) * d && (a + 1) * d == a * d + d;
    if q < a {
      MulMonotone(q + 1, a, d);
    }
    if a < q {
      MulMonotone(a + 1, q, d);
    }
  }

  /** The digits of n are its remainder by 256 followed by the digits of its quotient. */
  lemma EncodeNatStep(n: nat, width: nat)
    requires width > 0
    ensures EncodeNat(n, width) == [ByteFor(n % 256)] + EncodeNat(n / 256, width - 1)
  {
    assert Digit(n, 0) == ByteFor(n % 256);
    forall i | 0 < i < width ensures Digit(n, i) == Digit(n / 256, i - 1) {
      DivideTwice(n, Pow256(i - 1));
    }
  }

  lemma {:induction false} NatRoundTrip(n: nat, width: nat)
    requires n < Pow256(width)
    ensures DecodeNat(EncodeNat(n, width)) == n
  {
    if width > 0 {
      QuotientBound(n, Pow256(width - 1));
      NatRoundTrip(n / 256, width - 1);
      EncodeNatStep(n, width);
      DecodeNatStep(ByteFor(n % 256), EncodeNat(n / 256, width - 1));
    }
  }

  lemma QuotientBound(n: nat, m: nat)
    requires n < 256 * m
    ensures n / 256 < m
  {
  }

  lemma DecodeNatStep(b: byte, bs: Bytes)
    ensures DecodeNat([b] + bs) == b as nat + 256 * DecodeNat(bs)
  {
    assert ([b] + bs)[1..] == bs;
  }

  lemma {:induction false} DecodeNatBound(bs: Bytes)
    ensures DecodeNat(bs) < Pow256(|bs|)
  {
    if bs != [] {
      DecodeNatBound(bs[1..]);
    }
  }

  lemma LengthLimit()
    ensures Pow256(LENGTH_BYTES) == VEC_LIMIT
  {
    assert Pow256(4) == 0x1_0000_0000;
    assert Pow256(8) == 256 * 256 * 256 * 256 * Pow256(4);
  }

  function EncodeVec(v: Vec): Bytes {
    EncodeNat(|v|, LENGTH_BYTES) + v
  }

  /** A decoded value together with the bytes the decoder did not consume. */
  datatype Decoded = Decoded(value: Vec, rest: Bytes)

  function DecodeVec(bs: Bytes): Option<Decoded> {
    if |bs| < LENGTH_BYTES then None
    else
      var n := DecodeNat(bs[..LENGTH_BYTES]);
      var tail := bs[LENGTH_BYTES..];
      if |tail| < n then None
      else
        DecodeNatBound(bs[..LENGTH_BYTES]);
        LengthLimit();
        Some(Decoded(tail[..n], tail[n..]))
  }

  function EncodeAnchor(a: Anchor): Bytes {
    EncodeVec(a.data)
  }

  function DecodeAnchor(bs: Bytes): Option<Anchor> {
    match DecodeVec(bs)
    case None => None
    case Some(d) => Some(Anchor(d.value))
  }

  function EncodeJob(j: Job): Bytes
    requires |j.input.data| < VEC_LIMIT
  {
    EncodeAnchor(j.anchor) + EncodeVec(j.input.data)
  }

  function DecodeJob(bs: Bytes): Option<Job> {
    match DecodeVec(bs)
    case None => None
    case Some(a) =>
      match DecodeVec(a.rest)
      case None => None
      case Some(d) => Some(Job(Anchor(a.value), Input(d.value)))
  }

  /** Decoding consumes exactly what encoding wrote, whatever follows it. */
  lemma VecRoundTrip(v: Vec, rest: Bytes)
    ensures DecodeVec(EncodeVec(v) + rest) == Some(Decoded(v, rest))
  {
    var prefix := EncodeNat(|v|, LENGTH_BYTES);
    assert DecodeNat(prefix) == |v| by {
      LengthLimit();
      NatRoundTrip(|v|, LENGTH_BYTES);
    }
    var bs := EncodeVec(v) + rest;
    assert bs[..LENGTH_BYTES] == prefix;
    assert bs[LENGTH_BYTES..] == v + rest;
    assert (v + rest)[..|v|] == v && (v + rest)[|v|..] == rest;
  }

  lemma AnchorRoundTrip(a: Anchor)
    ensures DecodeAnchor(EncodeAnchor(a)) == Some(a)
  {
    VecRoundTrip(a.data, []);
    assert EncodeVec(a.data) + [] == EncodeVec(a.data);
  }

  /** Two anchors share a tree key only if they are the same anchor. */
  lemma AnchorInjective(a: Anchor, b: Anchor)
    ensures EncodeAnchor(a) == EncodeAnchor(b) <==> a == b
  {
    AnchorRoundTrip(a);
    AnchorRoundTrip(b);
  }

  /** A byte string decodes as a Job exactly when it starts with an encoded Job. */
  lemma DecodesAsJobIff(bs: Bytes)
    ensures DecodeJob(bs).Some? <==>
            exists j: Job :: |j.input.data| < VEC_LIMIT && EncodeJob(j) <= bs
  {
    if DecodeJob(bs).Some? {
      DecodedJobIsPrefix(bs);
    }
    forall j: Job | |j.input.data| < VEC_LIMIT && EncodeJob(j) <= bs
      ensures DecodeJob(bs).Some?
    {
      PrefixDecodesAsJob(bs, j);
    }
  }

  lemma DecodedJobIsPrefix(bs: Bytes)
    requires DecodeJob(bs).Some?
    ensures var j := DecodeJob(bs).value;
            |j.input.data| < VEC_LIMIT && EncodeJob(j) <= bs
  {
    var a := DecodeVec(bs).value;
    var d := DecodeVec(a.rest).value;
    VecPrefix(bs);
    VecPrefix(a.rest);
    assert bs == (EncodeVec(a.value) + EncodeVec(d.value)) + d.rest;
  }

  lemma PrefixDecodesAsJob(bs: Bytes, j: Job)
    requires |j.input.data| < VEC_LIMIT && EncodeJob(j) <= bs
    ensures DecodeJob(bs) == Some(j)
  {
    var tail := bs[|EncodeJob(j)|..];
    assert bs == EncodeVec(j.anchor.data) + (EncodeVec(j.input.data) + tail);
    VecRoundTrip(j.anchor.data, EncodeVec(j.input.data) + tail);
    VecRoundTrip(j.input.data, tail);
  }

  /** What a successful decode read is the encoding of what it returned. */
  lemma VecPrefix(bs: Bytes)
    requires DecodeVec(bs).Some?
    ensures var d := DecodeVec(bs).value; bs == EncodeVec(d.value) + d.rest
  {
    EncodeDecodeNat(bs[..LENGTH_BYTES]);
    assert bs == bs[..LENGTH_BYTES] + bs[LENGTH_BYTES..];
  }

  lemma {:induction false} EncodeDecodeNat(bs: Bytes)
    ensures EncodeNat(DecodeNat(bs), |bs|) == bs
  {
    if bs != [] {
      var n, b, d := DecodeNat(bs), bs[0], DecodeNat(bs[1..]);
      EncodeDecodeNat(bs[1..]);
      assert n % 256 == b as nat && n / 256 == d by {
        LeadingDigit(b as nat, d);
      }
      assert ByteFor(n % 256) == b by {
        ByteRoundTrip(b);
      }
      EncodeNatStep(n, |bs|);
    }
  }

  lemma ByteRoundTrip(b: byte)
    ensures (b as nat) < 256 && ByteFor(b as nat) == b
  {
    SameByte(b, ByteFor(b as nat));
  }

  lemma SameByte(b: byte, c: byte)
    ensures b as nat == c as nat <==> b == c
  {
  }

  lemma LeadingDigit(b: nat, d: nat)
    requires b < 256
    ensures (b + 256 * d) % 256 == b && (b + 256 * d) / 256 == d
  {
  }

  /**
   No tree key decodes as a Job: the key ends where the Job's second vector would
   have to start. This is what the start-up loop asks for and unwraps.
   */
  lemma AnchorNeverDecodesAsJob(a: Anchor)
    ensures DecodeJob(EncodeAnchor(a)) == None
  {
    VecRoundTrip(a.data, []);
    assert EncodeVec(a.data) + [] == EncodeVec(a.data);
  }

  /** The tree key of a digest: its length in eight bytes, least significant first, and the digest. */
  lemma DigestKey(d: Digest)
    ensures EncodeAnchor(Anchor(d)) == [32, 0, 0, 0, 0, 0, 0, 0] + d
  {
    var bs := EncodeNat(|d|, LENGTH_BYTES);
    assert bs[0] as nat == 32;
    forall i | 1 <= i < 8 ensures bs[i] as nat == 0 {
      SmallOver(|d|, i);
    }
    SameByte(bs[0], 32);
    forall i | 1 <= i < 8 ensures bs[i] == 0 {
      SameByte(bs[i], 0);
    }
    assert bs == [32, 0, 0, 0, 0, 0, 0, 0];
  }

  /** A number below 256 has no further digits. */
  lemma SmallOver(n: nat, i: nat)
    requires n < 256 && i > 0
    ensures n / Pow256(i) == 0
  {
    assert n < Pow256(i) by {
      assert Pow256(i) == 256 * Pow256(i - 1);
      MulMonotone(1, Pow256(i - 1), 256);
    }
    QuotientUnique(n, Pow256(i), 0, n);
  }
}
