/**
 The published values of RFC 8439: the quarter round of section 2.1.1, the first two
 blocks of the zero key and nonce (appendix A.1) and the block of section 2.3.2, with the
 states between every two double rounds on the way. They fix what the other results,
 which hold for any key stream, leave open: the constants, the order of words and bytes,
 where the counter stands and starts, and the addition at the end.
 */
module ChaChaVectors {
  import opened Jobs
  import opened ChaChaBlock
  import ChaCha

  /** The test vector of section 2.1.1. */
  lemma MixVector()
    ensures Mix(0x11111111, 0x01020304, 0x9b8d6f43, 0x01234567) == (0xea2a92f4, 0xcb1cf8ce, 0x4581472e, 0x5881c4bb)
  {
  }

  /** From state to state, two double rounds at a time. */
  lemma {:induction false} InPairs(states: seq<Block>, numbers: seq<nat>)
    requires |states| > 0 && |numbers| == 2 * (|states| - 1)
    requires forall i :: 0 <= i < |states| - 1 ==> DoubleRound(DoubleRound(states[i])) == states[i + 1]
    ensures DoubleRounds(states[0], numbers) == states[|states| - 1]
    decreases |states|
  {
    if |states| > 1 {
      assert numbers[1..][1..] == numbers[2..];
      InPairs(states[1..], numbers[2..]);
    }
  }

  lemma TenInPairs(s0: Block, s2: Block, s4: Block, s6: Block, s8: Block, s10: Block)
    requires DoubleRound(DoubleRound(s0)) == s2 && DoubleRound(DoubleRound(s2)) == s4
    requires DoubleRound(DoubleRound(s4)) == s6 && DoubleRound(DoubleRound(s6)) == s8
    requires DoubleRound(DoubleRound(s8)) == s10
    ensures TwentyRounds(s0) == s10
  {
    InPairs([s0, s2, s4, s6, s8, s10], Numbers(10));
  }

  lemma RowIs(r: Words, b0: Bytes, b1: Bytes, b2: Bytes, b3: Bytes)
    requires WordBytes(r.0) == b0 && WordBytes(r.1) == b1 && WordBytes(r.2) == b2 && WordBytes(r.3) == b3
    ensures RowBytes(r) == b0 + b1 + b2 + b3
  {
  }

  ghost predicate IsZero(bs: Bytes) {
    forall i :: 0 <= i < |bs| ==> bs[i] == 0
  }

  function CountKey(): Bytes {
    [0x00, 0x01, 0x02, 0x03, 0x04, 0x05, 0x06, 0x07, 0x08, 0x09, 0x0a, 0x0b, 0x0c, 0x0d, 0x0e, 0x0f,
     0x10, 0x11, 0x12, 0x13, 0x14, 0x15, 0x16, 0x17, 0x18, 0x19, 0x1a, 0x1b, 0x1c, 0x1d, 0x1e, 0x1f]
  }

  function CountNonce(): Bytes {
    [0x00, 0x00, 0x00, 0x09, 0x00, 0x00, 0x00, 0x4a, 0x00, 0x00, 0x00, 0x00]
  }

  // ----- The zero key and nonce, counter 0: appendix A.1, vector 1 -----

  function Zero0State0(): Block {
    Block((0x61707865, 0x3320646e, 0x79622d32, 0x6b206574),
          (0x00000000, 0x00000000, 0x00000000, 0x00000000),
          (0x00000000, 0x00000000, 0x00000000, 0x00000000),
          (0x00000000, 0x00000000, 0x00000000, 0x00000000))
  }

  function Zero0State2(): Block {
    Block((0xb20e0da6, 0x21219e43, 0x79c69196, 0x8eb9d107),
          (0x28bfa54e, 0x0e8a389f, 0x7919a4b4, 0x323f2639),
          (0x69727d19, 0x12e796ec, 0xd1875d88, 0x602bb1ec),
          (0x601c8a8d, 0x18cf3767, 0x60d10ebc, 0x17aa36ca))
  }

  function Zero0State4(): Block {
    Block((0xce7e87d9, 0xa31ffb1b, 0x6f562e4d, 0x3684a3ab),
          (0xc30e842c, 0x3b7f9ace, 0x88e11b18, 0x1e1a71ef),
          (0x72e14c98, 0x416f21b9, 0x6753449f, 0x19566d45),
          (0xa3424a31, 0x01b086da, 0xb8fd7b38, 0x42fe0c0e))
  }

  function Zero0State6(): Block {
    Block((0x092a7c36, 0x20d8f099, 0x996bf24f, 0x6a62c0eb),
          (0xbbc32904, 0x1474e049, 0xa589007e, 0x5f15ae2e),
          (0x79f86405, 0xc0e37ad2, 0x3428e82c, 0x798cfaac),
          (0x2c9f623a, 0x1969dea0, 0x2fe80b61, 0xbe261341))
  }

  function Zero0State8(): Block {
    Block((0xf6eb4385, 0x0f5070cf, 0x824ac4d4, 0xff026184),
          (0x71db97dd, 0x60cd994d, 0xad805036, 0x89d591ce),
          (0x9e5243f3, 0x16d0ee25, 0x82e92b96, 0xd0da8654),
          (0x6b96a006, 0x477a37f7, 0xd244fa8c, 0xb24c5c63))
  }

  function Zero0State10(): Block {
    Block((0x4c704011, 0x5d1d8d32, 0x6c08300e, 0xbd9d20df),
          (0xb819d2bd, 0x1aed8da0, 0xccef36a8, 0xc70d778b),
          (0x7c5941da, 0x8d485751, 0x3fe02477, 0x374ad8b8),
          (0xf4b8436a, 0x1ca11815, 0x69b687c3, 0x8665eeb2))
  }

  lemma Zero0Rounds0()
    ensures DoubleRound(DoubleRound(Zero0State0())) == Zero0State2()
  {
  }

  lemma Zero0Rounds2()
    ensures DoubleRound(DoubleRound(Zero0State2())) == Zero0State4()
  {
  }

  lemma Zero0Rounds4()
    ensures DoubleRound(DoubleRound(Zero0State4())) == Zero0State6()
  {
  }

  lemma Zero0Rounds6()
    ensures DoubleRound(DoubleRound(Zero0State6())) == Zero0State8()
  {
  }

  lemma Zero0Rounds8()
    ensures DoubleRound(DoubleRound(Zero0State8())) == Zero0State10()
  {
  }

  function Zero0Block(): Bytes {
    [0x76, 0xb8, 0xe0, 0xad, 0xa0, 0xf1, 0x3d, 0x90, 0x40, 0x5d, 0x6a, 0xe5, 0x53, 0x86, 0xbd, 0x28] +
    [0xbd, 0xd2, 0x19, 0xb8, 0xa0, 0x8d, 0xed, 0x1a, 0xa8, 0x36, 0xef, 0xcc, 0x8b, 0x77, 0x0d, 0xc7] +
    [0xda, 0x41, 0x59, 0x7c, 0x51, 0x57, 0x48, 0x8d, 0x77, 0x24, 0xe0, 0x3f, 0xb8, 0xd8, 0x4a, 0x37] +
    [0x6a, 0x43, 0xb8, 0xf4, 0x15, 0x18, 0xa1, 0x1c, 0xc3, 0x87, 0xb6, 0x69, 0xb2, 0xee, 0x65, 0x86]
  }

  lemma Zero0Initial(key: EncryptionKey, nonce: Nonce)
    requires IsZero(key) && IsZero(nonce)
    ensures InitialBlock(key, nonce, 0) == Zero0State0()
  {
  }

  function Zero0Sum(): Block {
    Block((0xade0b876, 0x903df1a0, 0xe56a5d40, 0x28bd8653),
          (0xb819d2bd, 0x1aed8da0, 0xccef36a8, 0xc70d778b),
          (0x7c5941da, 0x8d485751, 0x3fe02477, 0x374ad8b8),
          (0xf4b8436a, 0x1ca11815, 0x69b687c3, 0x8665eeb2))
  }

  lemma Zero0Adds()
    ensures AddBlocks(Zero0State10(), Zero0State0()) == Zero0Sum()
  {
  }

  lemma Zero0RowA()
    ensures RowBytes((0xade0b876, 0x903df1a0, 0xe56a5d40, 0x28bd8653))
         == [0x76, 0xb8, 0xe0, 0xad, 0xa0, 0xf1, 0x3d, 0x90, 0x40, 0x5d, 0x6a, 0xe5, 0x53, 0x86, 0xbd, 0x28]
  {
    RowIs((0xade0b876, 0x903df1a0, 0xe56a5d40, 0x28bd8653),
          [0x76, 0xb8, 0xe0, 0xad], [0xa0, 0xf1, 0x3d, 0x90], [0x40, 0x5d, 0x6a, 0xe5], [0x53, 0x86, 0xbd, 0x28]);
  }

  lemma Zero0RowB()
    ensures RowBytes((0xb819d2bd, 0x1aed8da0, 0xccef36a8, 0xc70d778b))
         == [0xbd, 0xd2, 0x19, 0xb8, 0xa0, 0x8d, 0xed, 0x1a, 0xa8, 0x36, 0xef, 0xcc, 0x8b, 0x77, 0x0d, 0xc7]
  {
    RowIs((0xb819d2bd, 0x1aed8da0, 0xccef36a8, 0xc70d778b),
          [0xbd, 0xd2, 0x19, 0xb8], [0xa0, 0x8d, 0xed, 0x1a], [0xa8, 0x36, 0xef, 0xcc], [0x8b, 0x77, 0x0d, 0xc7]);
  }

  lemma Zero0RowC()
    ensures RowBytes((0x7c5941da, 0x8d485751, 0x3fe02477, 0x374ad8b8))
         == [0xda, 0x41, 0x59, 0x7c, 0x51, 0x57, 0x48, 0x8d, 0x77, 0x24, 0xe0, 0x3f, 0xb8, 0xd8, 0x4a, 0x37]
  {
    RowIs((0x7c5941da, 0x8d485751, 0x3fe02477, 0x374ad8b8),
          [0xda, 0x41, 0x59, 0x7c], [0x51, 0x57, 0x48, 0x8d], [0x77, 0x24, 0xe0, 0x3f], [0xb8, 0xd8, 0x4a, 0x37]);
  }

  lemma Zero0RowD()
    ensures RowBytes((0xf4b8436a, 0x1ca11815, 0x69b687c3, 0x8665eeb2))
         == [0x6a, 0x43, 0xb8, 0xf4, 0x15, 0x18, 0xa1, 0x1c, 0xc3, 0x87, 0xb6, 0x69, 0xb2, 0xee, 0x65, 0x86]
  {
    RowIs((0xf4b8436a, 0x1ca11815, 0x69b687c3, 0x8665eeb2),
          [0x6a, 0x43, 0xb8, 0xf4], [0x15, 0x18, 0xa1, 0x1c], [0xc3, 0x87, 0xb6, 0x69], [0xb2, 0xee, 0x65, 0x86]);
  }

  lemma Zero0Bytes()
    ensures BlockBytes(Zero0Sum()) == Zero0Block()
  {
    Zero0RowA();
    Zero0RowB();
    Zero0RowC();
    Zero0RowD();
  }

  lemma Zero0KeyBlock(key: EncryptionKey, nonce: Nonce)
    requires IsZero(key) && IsZero(nonce)
    ensures KeyBlock(key, nonce, 0) == Zero0Block()
  {
    Zero0Initial(key, nonce);
    Zero0Rounds0();
    Zero0Rounds2();
    Zero0Rounds4();
    Zero0Rounds6();
    Zero0Rounds8();
    TenInPairs(Zero0State0(), Zero0State2(), Zero0State4(), Zero0State6(), Zero0State8(), Zero0State10());
    Zero0Adds();
    Zero0Bytes();
  }

  // ----- The zero key and nonce, counter 1: appendix A.1, vector 2 -----

  function Zero1State0(): Block {
    Block((0x61707865, 0x3320646e, 0x79622d32, 0x6b206574),
          (0x00000000, 0x00000000, 0x00000000, 0x00000000),
          (0x00000000, 0x00000000, 0x00000000, 0x00000000),
          (0x00000001, 0x00000000, 0x00000000, 0x00000000))
  }

  function Zero1State2(): Block {
    Block((0xbc389fa8, 0xb9ba7055, 0x3085e7bd, 0x009ee8cf),
          (0x0ab5eecd, 0x3111471a, 0x86b484ee, 0x7f517f6d),
          (0x47323b48, 0x1289b2d8, 0xf81f7778, 0xad21d4ee),
          (0x6fb0164a, 0xadd42d2e, 0x81ed68a2, 0x66145871))
  }

  function Zero1State4(): Block {
    Block((0xac8a366d, 0x1ea1417c, 0xf378dd8d, 0x42858c8d),
          (0x1258fdc0, 0xaaa2f959, 0x8f0ff2dc, 0x6ba266d5),
          (0x38ec3250, 0x98dac5bb, 0x566f0cee, 0x652a878b),
          (0x25bf8a9f, 0xbb21eb1d, 0xd8e5564b, 0xaa681e82))
  }

  function Zero1State6(): Block {
    Block((0xe0185ca6, 0xcb53d9b2, 0xba0fcf54, 0xd1f77b18),
          (0xb7eb28c6, 0xcccbbd19, 0x21851515, 0xb489c04c),
          (0xcd8d2542, 0x11f14ca1, 0x97b802c6, 0x43c88c1b),
          (0xca461ee8, 0xc0515190, 0xb0a64427, 0x1693e617))
  }

  function Zero1State8(): Block {
    Block((0x1c81d118, 0x07845da3, 0xfb871f9b, 0xb8b34dc7),
          (0x7b49be25, 0x0953c57a, 0x965786f7, 0xb0fb0aed),
          (0x476c8add, 0x01145374, 0xcda1da32, 0xa0a37f22),
          (0x55f5c1d3, 0xee567c96, 0x12acd21c, 0x835e6d3a))
  }

  function Zero1State10(): Block {
    Block((0x5d768f3a, 0x4717ece7, 0x03358d66, 0xa1e7c7ff),
          (0xa0290fcb, 0x6965e348, 0x3e53c612, 0xed7aee32),
          (0x7621b729, 0x434ee69c, 0xb03371d5, 0xd539d874),
          (0x281fed30, 0x45fb0a51, 0x1f0ae1ac, 0x6f4d794b))
  }

  lemma Zero1Rounds0()
    ensures DoubleRound(DoubleRound(Zero1State0())) == Zero1State2()
  {
  }

  lemma Zero1Rounds2()
    ensures DoubleRound(DoubleRound(Zero1State2())) == Zero1State4()
  {
  }

  lemma Zero1Rounds4()
    ensures DoubleRound(DoubleRound(Zero1State4())) == Zero1State6()
  {
  }

  lemma Zero1Rounds6()
    ensures DoubleRound(DoubleRound(Zero1State6())) == Zero1State8()
  {
  }

  lemma Zero1Rounds8()
    ensures DoubleRound(DoubleRound(Zero1State8())) == Zero1State10()
  {
  }

  function Zero1Block(): Bytes {
    [0x9f, 0x07, 0xe7, 0xbe, 0x55, 0x51, 0x38, 0x7a, 0x98, 0xba, 0x97, 0x7c, 0x73, 0x2d, 0x08, 0x0d] +
    [0xcb, 0x0f, 0x29, 0xa0, 0x48, 0xe3, 0x65, 0x69, 0x12, 0xc6, 0x53, 0x3e, 0x32, 0xee, 0x7a, 0xed] +
    [0x29, 0xb7, 0x21, 0x76, 0x9c, 0xe6, 0x4e, 0x43, 0xd5, 0x71, 0x33, 0xb0, 0x74, 0xd8, 0x39, 0xd5] +
    [0x31, 0xed, 0x1f, 0x28, 0x51, 0x0a, 0xfb, 0x45, 0xac, 0xe1, 0x0a, 0x1f, 0x4b, 0x79, 0x4d, 0x6f]
  }

  lemma Zero1Initial(key: EncryptionKey, nonce: Nonce)
    requires IsZero(key) && IsZero(nonce)
    ensures InitialBlock(key, nonce, 1) == Zero1State0()
  {
  }

  function Zero1Sum(): Block {
    Block((0xbee7079f, 0x7a385155, 0x7c97ba98, 0x0d082d73),
          (0xa0290fcb, 0x6965e348, 0x3e53c612, 0xed7aee32),
          (0x7621b729, 0x434ee69c, 0xb03371d5, 0xd539d874),
          (0x281fed31, 0x45fb0a51, 0x1f0ae1ac, 0x6f4d794b))
  }

  lemma Zero1Adds()
    ensures AddBlocks(Zero1State10(), Zero1State0()) == Zero1Sum()
  {
  }

  lemma Zero1RowA()
    ensures RowBytes((0xbee7079f, 0x7a385155, 0x7c97ba98, 0x0d082d73))
         == [0x9f, 0x07, 0xe7, 0xbe, 0x55, 0x51, 0x38, 0x7a, 0x98, 0xba, 0x97, 0x7c, 0x73, 0x2d, 0x08, 0x0d]
  {
    RowIs((0xbee7079f, 0x7a385155, 0x7c97ba98, 0x0d082d73),
          [0x9f, 0x07, 0xe7, 0xbe], [0x55, 0x51, 0x38, 0x7a], [0x98, 0xba, 0x97, 0x7c], [0x73, 0x2d, 0x08, 0x0d]);
  }

  lemma Zero1RowB()
    ensures RowBytes((0xa0290fcb, 0x6965e348, 0x3e53c612, 0xed7aee32))
         == [0xcb, 0x0f, 0x29, 0xa0, 0x48, 0xe3, 0x65, 0x69, 0x12, 0xc6, 0x53, 0x3e, 0x32, 0xee, 0x7a, 0xed]
  {
    RowIs((0xa0290fcb, 0x6965e348, 0x3e53c612, 0xed7aee32),
          [0xcb, 0x0f, 0x29, 0xa0], [0x48, 0xe3, 0x65, 0x69], [0x12, 0xc6, 0x53, 0x3e], [0x32, 0xee, 0x7a, 0xed]);
  }

  lemma Zero1RowC()
    ensures RowBytes((0x7621b729, 0x434ee69c, 0xb03371d5, 0xd539d874))
         == [0x29, 0xb7, 0x21, 0x76, 0x9c, 0xe6, 0x4e, 0x43, 0xd5, 0x71, 0x33, 0xb0, 0x74, 0xd8, 0x39, 0xd5]
  {
    RowIs((0x7621b729, 0x434ee69c, 0xb03371d5, 0xd539d874),
          [0x29, 0xb7, 0x21, 0x76], [0x9c, 0xe6, 0x4e, 0x43], [0xd5, 0x71, 0x33, 0xb0], [0x74, 0xd8, 0x39, 0xd5]);
  }

  lemma Zero1RowD()
    ensures RowBytes((0x281fed31, 0x45fb0a51, 0x1f0ae1ac, 0x6f4d794b))
         == [0x31, 0xed, 0x1f, 0x28, 0x51, 0x0a, 0xfb, 0x45, 0xac, 0xe1, 0x0a, 0x1f, 0x4b, 0x79, 0x4d, 0x6f]
  {
    RowIs((0x281fed31, 0x45fb0a51, 0x1f0ae1ac, 0x6f4d794b),
          [0x31, 0xed, 0x1f, 0x28], [0x51, 0x0a, 0xfb, 0x45], [0xac, 0xe1, 0x0a, 0x1f], [0x4b, 0x79, 0x4d, 0x6f]);
  }

  lemma Zero1Bytes()
    ensures BlockBytes(Zero1Sum()) == Zero1Block()
  {
    Zero1RowA();
    Zero1RowB();
    Zero1RowC();
    Zero1RowD();
  }

  lemma Zero1KeyBlock(key: EncryptionKey, nonce: Nonce)
    requires IsZero(key) && IsZero(nonce)
    ensures KeyBlock(key, nonce, 1) == Zero1Block()
  {
    Zero1Initial(key, nonce);
    Zero1Rounds0();
    Zero1Rounds2();
    Zero1Rounds4();
    Zero1Rounds6();
    Zero1Rounds8();
    TenInPairs(Zero1State0(), Zero1State2(), Zero1State4(), Zero1State6(), Zero1State8(), Zero1State10());
    Zero1Adds();
    Zero1Bytes();
  }

  // ----- The key 00, 01, ..., 1f and the nonce of section 2.3.2, counter 1 -----

  function CountState0(): Block {
    Block((0x61707865, 0x3320646e, 0x79622d32, 0x6b206574),
          (0x03020100, 0x07060504, 0x0b0a0908, 0x0f0e0d0c),
          (0x13121110, 0x17161514, 0x1b1a1918, 0x1f1e1d1c),
          (0x00000001, 0x09000000, 0x4a000000, 0x00000000))
  }

  function CountState2(): Block {
    Block((0xcf1a7584, 0x048927ec, 0x54051fda, 0xc244ff28),
          (0x901d2f40, 0x7974b81c, 0x378dcfb4, 0xcd47fd0e),
          (0x2dafb216, 0x27c89cd6, 0xcd3c9aa0, 0x79fc89c7),
          (0x10aef18d, 0x16218765, 0x68f76705, 0x04d6ee22))
  }

  function CountState4(): Block {
    Block((0x9a2d3589, 0x0b23fc4e, 0x40af3b6b, 0xceea8144),
          (0x0a1bffc6, 0x5e5993f7, 0x9904c2e7, 0x0d334718),
          (0xe46c6354, 0xc9503229, 0x04fef5aa, 0xf8933f72),
          (0x2687d476, 0x54e65231, 0x3594ffc5, 0x2b3bb2ca))
  }

  function CountState6(): Block {
    Block((0x04a3131a, 0x66176309, 0x0415bab1, 0x61b880a2),
          (0x36cc86c7, 0xbf8a4465, 0xf77dd720, 0xfc0bdc90),
          (0x07d13aca, 0xeb0be9af, 0x61599491, 0x918512dc),
          (0x33b6686d, 0x795cc671, 0xc0049972, 0xa0a81bde))
  }

  function CountState8(): Block {
    Block((0xca5c85dd, 0x93a4f90e, 0xd9f0df58, 0x26dd82dd),
          (0x982563f8, 0x712aa9ff, 0x279a61e8, 0x970f72bd),
          (0x1c25931a, 0x5180bb10, 0x779c27e7, 0x54077e08),
          (0xa9b751fb, 0x382f3ce2, 0x8db1757d, 0xcc38080b))
  }

  function CountState10(): Block {
    Block((0x837778ab, 0xe238d763, 0xa67ae21e, 0x5950bb2f),
          (0xc4f2d0c7, 0xfc62bb2f, 0x8fa018fc, 0x3f5ec7b7),
          (0x335271c2, 0xf29489f3, 0xeabda8fc, 0x82e46ebd),
          (0xd19c12b4, 0xb04e16de, 0x9e83d0cb, 0x4e3c50a2))
  }

  lemma CountRounds0()
    ensures DoubleRound(DoubleRound(CountState0())) == CountState2()
  {
  }

  lemma CountRounds2()
    ensures DoubleRound(DoubleRound(CountState2())) == CountState4()
  {
  }

  lemma CountRounds4()
    ensures DoubleRound(DoubleRound(CountState4())) == CountState6()
  {
  }

  lemma CountRounds6()
    ensures DoubleRound(DoubleRound(CountState6())) == CountState8()
  {
  }

  lemma CountRounds8()
    ensures DoubleRound(DoubleRound(CountState8())) == CountState10()
  {
  }

  function CountBlock(): Bytes {
    [0x10, 0xf1, 0xe7, 0xe4, 0xd1, 0x3b, 0x59, 0x15, 0x50, 0x0f, 0xdd, 0x1f, 0xa3, 0x20, 0x71, 0xc4] +
    [0xc7, 0xd1, 0xf4, 0xc7, 0x33, 0xc0, 0x68, 0x03, 0x04, 0x22, 0xaa, 0x9a, 0xc3, 0xd4, 0x6c, 0x4e] +
    [0xd2, 0x82, 0x64, 0x46, 0x07, 0x9f, 0xaa, 0x09, 0x14, 0xc2, 0xd7, 0x05, 0xd9, 0x8b, 0x02, 0xa2] +
    [0xb5, 0x12, 0x9c, 0xd1, 0xde, 0x16, 0x4e, 0xb9, 0xcb, 0xd0, 0x83, 0xe8, 0xa2, 0x50, 0x3c, 0x4e]
  }

  lemma CountInitial(key: EncryptionKey, nonce: Nonce)
    requires key == CountKey() && nonce == CountNonce()
    ensures InitialBlock(key, nonce, 1) == CountState0()
  {
  }

  function CountSum(): Block {
    Block((0xe4e7f110, 0x15593bd1, 0x1fdd0f50, 0xc47120a3),
          (0xc7f4d1c7, 0x0368c033, 0x9aaa2204, 0x4e6cd4c3),
          (0x466482d2, 0x09aa9f07, 0x05d7c214, 0xa2028bd9),
          (0xd19c12b5, 0xb94e16de, 0xe883d0cb, 0x4e3c50a2))
  }

  lemma CountAdds()
    ensures AddBlocks(CountState10(), CountState0()) == CountSum()
  {
  }

  lemma CountRowA()
    ensures RowBytes((0xe4e7f110, 0x15593bd1, 0x1fdd0f50, 0xc47120a3))
         == [0x10, 0xf1, 0xe7, 0xe4, 0xd1, 0x3b, 0x59, 0x15, 0x50, 0x0f, 0xdd, 0x1f, 0xa3, 0x20, 0x71, 0xc4]
  {
    RowIs((0xe4e7f110, 0x15593bd1, 0x1fdd0f50, 0xc47120a3),
          [0x10, 0xf1, 0xe7, 0xe4], [0xd1, 0x3b, 0x59, 0x15], [0x50, 0x0f, 0xdd, 0x1f], [0xa3, 0x20, 0x71, 0xc4]);
  }

  lemma CountRowB()
    ensures RowBytes((0xc7f4d1c7, 0x0368c033, 0x9aaa2204, 0x4e6cd4c3))
         == [0xc7, 0xd1, 0xf4, 0xc7, 0x33, 0xc0, 0x68, 0x03, 0x04, 0x22, 0xaa, 0x9a, 0xc3, 0xd4, 0x6c, 0x4e]
  {
    RowIs((0xc7f4d1c7, 0x0368c033, 0x9aaa2204, 0x4e6cd4c3),
          [0xc7, 0xd1, 0xf4, 0xc7], [0x33, 0xc0, 0x68, 0x03], [0x04, 0x22, 0xaa, 0x9a], [0xc3, 0xd4, 0x6c, 0x4e]);
  }

  lemma CountRowC()
    ensures RowBytes((0x466482d2, 0x09aa9f07, 0x05d7c214, 0xa2028bd9))
         == [0xd2, 0x82, 0x64, 0x46, 0x07, 0x9f, 0xaa, 0x09, 0x14, 0xc2, 0xd7, 0x05, 0xd9, 0x8b, 0x02, 0xa2]
  {
    RowIs((0x466482d2, 0x09aa9f07, 0x05d7c214, 0xa2028bd9),
          [0xd2, 0x82, 0x64, 0x46], [0x07, 0x9f, 0xaa, 0x09], [0x14, 0xc2, 0xd7, 0x05], [0xd9, 0x8b, 0x02, 0xa2]);
  }

  lemma CountRowD()
    ensures RowBytes((0xd19c12b5, 0xb94e16de, 0xe883d0cb, 0x4e3c50a2))
         == [0xb5, 0x12, 0x9c, 0xd1, 0xde, 0x16, 0x4e, 0xb9, 0xcb, 0xd0, 0x83, 0xe8, 0xa2, 0x50, 0x3c, 0x4e]
  {
    RowIs((0xd19c12b5, 0xb94e16de, 0xe883d0cb, 0x4e3c50a2),
          [0xb5, 0x12, 0x9c, 0xd1], [0xde, 0x16, 0x4e, 0xb9], [0xcb, 0xd0, 0x83, 0xe8], [0xa2, 0x50, 0x3c, 0x4e]);
  }

  lemma CountBytes()
    ensures BlockBytes(CountSum()) == CountBlock()
  {
    CountRowA();
    CountRowB();
    CountRowC();
    CountRowD();
  }

  lemma CountKeyBlock(key: EncryptionKey, nonce: Nonce)
    requires key == CountKey() && nonce == CountNonce()
    ensures KeyBlock(key, nonce, 1) == CountBlock()
  {
    CountInitial(key, nonce);
    CountRounds0();
    CountRounds2();
    CountRounds4();
    CountRounds6();
    CountRounds8();
    TenInPairs(CountState0(), CountState2(), CountState4(), CountState6(), CountState8(), CountState10());
    CountAdds();
    CountBytes();
  }

  // ----- The key stream -----

  lemma StreamBlock(key: EncryptionKey, nonce: Nonce, n: nat, j: nat)
    requires j < BLOCK_BYTES
    ensures ChaCha.KeyStream(ChaCha.NewCipher(key, nonce), BLOCK_BYTES * n + j) == KeyBlock(key, nonce, n)[j]
  {
    ChaCha.StreamIndex(n, j);
  }

  /** The first 128 bytes of the zero key's stream are the first two vectors of appendix A.1. */
  lemma ZeroKeyStream(key: EncryptionKey, nonce: Nonce, j: nat)
    requires IsZero(key) && IsZero(nonce) && j < 64
    ensures |Zero0Block()| == |Zero1Block()| == 64
    ensures ChaCha.KeyStream(ChaCha.NewCipher(key, nonce), j) == Zero0Block()[j]
    ensures ChaCha.KeyStream(ChaCha.NewCipher(key, nonce), 64 + j) == Zero1Block()[j]
  {
    Zero0KeyBlock(key, nonce);
    Zero1KeyBlock(key, nonce);
    StreamBlock(key, nonce, 0, j);
    StreamBlock(key, nonce, 1, j);
  }

  /** Bytes 64 to 127 of that key's stream are the block of section 2.3.2. */
  lemma CountKeyStream(key: EncryptionKey, nonce: Nonce, j: nat)
    requires key == CountKey() && nonce == CountNonce() && j < 64
    ensures |CountBlock()| == 64
    ensures ChaCha.KeyStream(ChaCha.NewCipher(key, nonce), 64 + j) == CountBlock()[j]
  {
    CountKeyBlock(key, nonce);
    StreamBlock(key, nonce, 1, j);
  }
}
