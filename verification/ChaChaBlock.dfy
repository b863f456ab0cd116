/**
 The ChaCha20 block function of RFC 8439, section 2.3: a 4 by 4 matrix of words made of
 constants, key, counter and nonce is mixed in twenty rounds, added to itself as it was
 before, and written out in bytes.
 */
module ChaChaBlock {
  import opened Jobs

  type Word = bv32
  type Words = (Word, Word, Word, Word)

  /** The state, row by row. */
  datatype Block = Block(a: Words, b: Words, c: Words, d: Words)

  const BLOCK_BYTES: nat := 64
  const COUNTER_LIMIT: nat := 0x1_0000_0000

  type KeyBytes = b: Bytes | |b| == BLOCK_BYTES witness seq(BLOCK_BYTES, _ => 0)

  // ----- The quarter round -----

  function Plus(x: Word, y: Word): Word { x + y }

  /** z ^= x; z <<<= n, for each of the four rotations. */
  function Left16(z: Word, x: Word): Word { (z ^ x).RotateLeft(16) }

  function Left12(z: Word, x: Word): Word { (z ^ x).RotateLeft(12) }

  function Left8(z: Word, x: Word): Word { (z ^ x).RotateLeft(8) }

  function Left7(z: Word, x: Word): Word { (z ^ x).RotateLeft(7) }

  /** The quarter round of section 2.1 on four words. */
  function Mix(a: Word, b: Word, c: Word, d: Word): Words {
    var a1 := Plus(a, b);
    var d1 := Left16(d, a1);
    var c1 := Plus(c, d1);
    var b1 := Left12(b, c1);
    var a2 := Plus(a1, b1);
    var d2 := Left8(d1, a2);
    var c2 := Plus(c1, d2);
    var b2 := Left7(b1, c2);
    (a2, b2, c2, d2)
  }

  // ----- The rounds -----

  /** Four quarter rounds on the columns. */
  function ColumnRound(s: Block): Block {
    var p, q, r, t :=
      Mix(s.a.0, s.b.0, s.c.0, s.d.0), Mix(s.a.1, s.b.1, s.c.1, s.d.1),
      Mix(s.a.2, s.b.2, s.c.2, s.d.2), Mix(s.a.3, s.b.3, s.c.3, s.d.3);
    Block((p.0, q.0, r.0, t.0), (p.1, q.1, r.1, t.1), (p.2, q.2, r.2, t.2), (p.3, q.3, r.3, t.3))
  }

  /** Four quarter rounds on the diagonals. */
  function DiagonalRound(s: Block): Block {
    var p, q, r, t :=
      Mix(s.a.0, s.b.1, s.c.2, s.d.3), Mix(s.a.1, s.b.2, s.c.3, s.d.0),
      Mix(s.a.2, s.b.3, s.c.0, s.d.1), Mix(s.a.3, s.b.0, s.c.1, s.d.2);
    Block((p.0, q.0, r.0, t.0), (t.1, p.1, q.1, r.1), (r.2, t.2, p.2, q.2), (q.3, r.3, t.3, p.3))
  }

  function DoubleRound(s: Block): Block {
    DiagonalRound(ColumnRound(s))
  }

  /** One double round for each number. */
  function DoubleRounds(s: Block, numbers: seq<nat>): Block
    decreases |numbers|
  {
    if numbers == [] then s else DoubleRounds(DoubleRound(s), numbers[1..])
  }

  function Numbers(n: nat): seq<nat> {
    seq(n, i => i)
  }

  /** Ten double rounds. */
  function TwentyRounds(s: Block): Block {
    DoubleRounds(s, Numbers(10))
  }

  // ----- Words and bytes -----

  /** Four bytes, least significant first. */
  function WordAt(bs: Bytes, i: nat): Word
    requires 4 * i + 4 <= |bs|
  {
    bs[4 * i] as Word | (bs[4 * i + 1] as Word << 8) | (bs[4 * i + 2] as Word << 16) | (bs[4 * i + 3] as Word << 24)
  }

  function WordBytes(w: Word): (bs: Bytes)
    ensures |bs| == 4
  {
    [(w & 0xff) as byte, ((w >> 8) & 0xff) as byte, ((w >> 16) & 0xff) as byte, ((w >> 24) & 0xff) as byte]
  }

  function RowBytes(r: Words): (bs: Bytes)
    ensures |bs| == 16
  {
    WordBytes(r.0) + WordBytes(r.1) + WordBytes(r.2) + WordBytes(r.3)
  }

  function InitialBlock(key: EncryptionKey, nonce: Nonce, counter: nat): Block {
    Block((0x61707865, 0x3320646e, 0x79622d32, 0x6b206574),
          (WordAt(key, 0), WordAt(key, 1), WordAt(key, 2), WordAt(key, 3)),
          (WordAt(key, 4), WordAt(key, 5), WordAt(key, 6), WordAt(key, 7)),
          ((counter % COUNTER_LIMIT) as Word, WordAt(nonce, 0), WordAt(nonce, 1), WordAt(nonce, 2)))
  }

  function AddRows(r: Words, t: Words): Words {
    (Plus(r.0, t.0), Plus(r.1, t.1), Plus(r.2, t.2), Plus(r.3, t.3))
  }

  function AddBlocks(s: Block, t: Block): Block {
    Block(AddRows(s.a, t.a), AddRows(s.b, t.b), AddRows(s.c, t.c), AddRows(s.d, t.d))
  }

  function BlockBytes(s: Block): KeyBytes {
    RowBytes(s.a) + RowBytes(s.b) + RowBytes(s.c) + RowBytes(s.d)
  }

  /** The block function, serialised. */
  function KeyBlock(key: EncryptionKey, nonce: Nonce, counter: nat): KeyBytes {
    var init := InitialBlock(key, nonce, counter);
    BlockBytes(AddBlocks(TwentyRounds(init), init))
  }

  // ----- The rounds can be undone -----

  function Minus(x: Word, y: Word): Word { x - y }

  function Right16(z: Word, x: Word): Word { z.RotateRight(16) ^ x }

  function Right12(z: Word, x: Word): Word { z.RotateRight(12) ^ x }

  function Right8(z: Word, x: Word): Word { z.RotateRight(8) ^ x }

  function Right7(z: Word, x: Word): Word { z.RotateRight(7) ^ x }

  lemma MinusSum(x: Word, y: Word)
    ensures Minus(x + y, y) == x
  {
  }

  lemma MinusPlus(x: Word, y: Word)
    ensures Minus(Plus(x, y), y) == x
  {
    MinusSum(x, y);
    assert Plus(x, y) == x + y;
  }

  lemma Right16Left(z: Word, x: Word)
    ensures Right16(Left16(z, x), x) == z
  {
  }

  lemma Right12Left(z: Word, x: Word)
    ensures Right12(Left12(z, x), x) == z
  {
  }

  lemma Right8Left(z: Word, x: Word)
    ensures Right8(Left8(z, x), x) == z
  {
  }

  lemma Right7Left(z: Word, x: Word)
    ensures Right7(Left7(z, x), x) == z
  {
  }

  /** The quarter round backwards. */
  function Unmix(w: Words): Words {
    var b1 := Right7(w.1, w.2);
    var c1 := Minus(w.2, w.3);
    var d1 := Right8(w.3, w.0);
    var a1 := Minus(w.0, b1);
    var b := Right12(b1, c1);
    var c := Minus(c1, d1);
    var d := Right16(d1, a1);
    (Minus(a1, b), b, c, d)
  }

  lemma UnmixMix(a: Word, b: Word, c: Word, d: Word)
    ensures Unmix(Mix(a, b, c, d)) == (a, b, c, d)
  {
    var a1 := Plus(a, b);
    var d1 := Left16(d, a1);
    var c1 := Plus(c, d1);
    var b1 := Left12(b, c1);
    var a2 := Plus(a1, b1);
    var d2 := Left8(d1, a2);
    var c2 := Plus(c1, d2);
    Right7Left(b1, c2);
    MinusPlus(c1, d2);
    Right8Left(d1, a2);
    MinusPlus(a1, b1);
    Right12Left(b, c1);
    MinusPlus(c, d1);
    Right16Left(d, a1);
    MinusPlus(a, b);
  }

  function UndoColumns(s: Block): Block {
    var p, q, r, t :=
      Unmix((s.a.0, s.b.0, s.c.0, s.d.0)), Unmix((s.a.1, s.b.1, s.c.1, s.d.1)),
      Unmix((s.a.2, s.b.2, s.c.2, s.d.2)), Unmix((s.a.3, s.b.3, s.c.3, s.d.3));
    Block((p.0, q.0, r.0, t.0), (p.1, q.1, r.1, t.1), (p.2, q.2, r.2, t.2), (p.3, q.3, r.3, t.3))
  }

  function UndoDiagonals(s: Block): Block {
    var p, q, r, t :=
      Unmix((s.a.0, s.b.1, s.c.2, s.d.3)), Unmix((s.a.1, s.b.2, s.c.3, s.d.0)),
      Unmix((s.a.2, s.b.3, s.c.0, s.d.1)), Unmix((s.a.3, s.b.0, s.c.1, s.d.2));
    Block((p.0, q.0, r.0, t.0), (t.1, p.1, q.1, r.1), (r.2, t.2, p.2, q.2), (q.3, r.3, t.3, p.3))
  }

  lemma ColumnsUndone(s: Block)
    ensures UndoColumns(ColumnRound(s)) == s
  {
    UnmixMix(s.a.0, s.b.0, s.c.0, s.d.0);
    UnmixMix(s.a.1, s.b.1, s.c.1, s.d.1);
    UnmixMix(s.a.2, s.b.2, s.c.2, s.d.2);
    UnmixMix(s.a.3, s.b.3, s.c.3, s.d.3);
  }

  lemma DiagonalsUndone(s: Block)
    ensures UndoDiagonals(DiagonalRound(s)) == s
  {
    UnmixMix(s.a.0, s.b.1, s.c.2, s.d.3);
    UnmixMix(s.a.1, s.b.2, s.c.3, s.d.0);
    UnmixMix(s.a.2, s.b.3, s.c.0, s.d.1);
    UnmixMix(s.a.3, s.b.0, s.c.1, s.d.2);
  }

  function UndoDoubleRounds(s: Block, numbers: seq<nat>): Block
    decreases |numbers|
  {
    if numbers == [] then s else UndoColumns(UndoDiagonals(UndoDoubleRounds(s, numbers[1..])))
  }

  lemma {:induction false} DoubleRoundsUndone(s: Block, numbers: seq<nat>)
    ensures UndoDoubleRounds(DoubleRounds(s, numbers), numbers) == s
    decreases |numbers|
  {
    if numbers != [] {
      DoubleRoundsUndone(DoubleRound(s), numbers[1..]);
      DiagonalsUndone(ColumnRound(s));
      ColumnsUndone(s);
    }
  }

  /** The rounds lose nothing: running them backwards gives the state they started from. */
  lemma RoundsUndone(s: Block)
    ensures UndoDoubleRounds(TwentyRounds(s), Numbers(10)) == s
  {
    DoubleRoundsUndone(s, Numbers(10));
  }

  /** States that differ anywhere, in a bit of key, nonce or counter, are mixed to states that differ. */
  lemma RoundsInjective(s: Block, t: Block)
    ensures TwentyRounds(s) == TwentyRounds(t) <==> s == t
  {
    RoundsUndone(s);
    RoundsUndone(t);
  }
}
