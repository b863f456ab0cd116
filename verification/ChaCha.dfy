/**
 ChaCha20 encryption as RFC 8439, section 2.4 defines it, by XOR with the key stream,
 together with the in-place form the service and the proven program call.
 */
module ChaCha {
  import opened Jobs
  import opened ChaChaBlock

  /** The stream starts at block zero. */
  const INITIAL_COUNTER: nat := 0

  /** A cipher ready to encrypt: the blocks of its key stream, by number. */
  type Cipher = nat -> KeyBytes

  function NewCipher(key: EncryptionKey, nonce: Nonce): Cipher {
    (counter: nat) => KeyBlock(key, nonce, INITIAL_COUNTER + counter)
  }

  /** The key stream of section 2.4: byte i is byte i mod 64 of block i / 64. */
  function KeyStream(cipher: Cipher, i: nat): byte {
    cipher(i / BLOCK_BYTES)[i % BLOCK_BYTES]
  }

  function Encrypt(cipher: Cipher, data: Bytes): (out: Bytes)
    ensures |out| == |data|
    ensures forall i :: 0 <= i < |data| ==> out[i] == data[i] ^ KeyStream(cipher, i)
  {
    seq(|data|, i requires 0 <= i < |data| => data[i] ^ KeyStream(cipher, i))
  }

  /** Encryption, and decryption, of a whole byte string. */
  function Apply(key: EncryptionKey, nonce: Nonce, data: Bytes): (out: Bytes)
    ensures |out| == |data|
  {
    Encrypt(NewCipher(key, nonce), data)
  }

  lemma XorCancel(out: byte, d: byte, k: byte, k': byte)
    requires out == (d ^ k) ^ k'
    ensures out == d <==> k == k'
  {
  }

  lemma TwiceByte(cipher: Cipher, cipher': Cipher, data: Bytes, i: nat)
    requires i < |data|
    ensures Encrypt(cipher', Encrypt(cipher, data))[i] == (data[i] ^ KeyStream(cipher, i)) ^ KeyStream(cipher', i)
  {
  }

  lemma TwiceAt(cipher: Cipher, cipher': Cipher, data: Bytes, i: nat)
    requires i < |data|
    ensures Encrypt(cipher', Encrypt(cipher, data))[i] == data[i] <==> KeyStream(cipher, i) == KeyStream(cipher', i)
  {
    var out := Encrypt(cipher', Encrypt(cipher, data))[i];
    TwiceByte(cipher, cipher', data, i);
    XorCancel(out, data[i], KeyStream(cipher, i), KeyStream(cipher', i));
  }

  lemma TwiceIff(cipher: Cipher, cipher': Cipher, data: Bytes)
    ensures Encrypt(cipher', Encrypt(cipher, data)) == data
       <==> forall i :: 0 <= i < |data| ==> KeyStream(cipher, i) == KeyStream(cipher', i)
  {
    var twice := Encrypt(cipher', Encrypt(cipher, data));
    forall i | 0 <= i < |data|
      ensures twice[i] == data[i] <==> KeyStream(cipher, i) == KeyStream(cipher', i)
    {
      TwiceAt(cipher, cipher', data, i);
    }
    if i: nat :| i < |data| && KeyStream(cipher, i) != KeyStream(cipher', i) {
      assert twice[i] != data[i];
    }
  }

  /** Applying the cipher twice under one key and nonce is the identity. */
  lemma Involution(key: EncryptionKey, nonce: Nonce, data: Bytes)
    ensures Apply(key, nonce, Apply(key, nonce, data)) == data
  {
    TwiceIff(NewCipher(key, nonce), NewCipher(key, nonce), data);
  }

  /**
   Decrypting under another key gives the data back exactly when both key streams
   agree on the data's length.
   */
  lemma DecryptsUnderIff(key: EncryptionKey, key': EncryptionKey, nonce: Nonce, data: Bytes)
    ensures Apply(key', nonce, Apply(key, nonce, data)) == data
       <==> forall i :: 0 <= i < |data| ==> KeyStream(NewCipher(key, nonce), i) == KeyStream(NewCipher(key', nonce), i)
  {
    TwiceIff(NewCipher(key, nonce), NewCipher(key', nonce), data);
  }

  /** Encrypting a prefix gives the prefix of the encryption. */
  lemma PrefixCommutes(key: EncryptionKey, nonce: Nonce, data: Bytes, n: nat)
    requires n <= |data|
    ensures Apply(key, nonce, data[..n]) == Apply(key, nonce, data)[..n]
  {
    var cipher := NewCipher(key, nonce);
    assert Encrypt(cipher, data[..n]) == Encrypt(cipher, data)[..n];
  }

  /** Byte-wise XOR of two strings of one length. */
  function XorBytes(a: Bytes, b: Bytes): (out: Bytes)
    requires |a| == |b|
    ensures |out| == |a|
  {
    seq(|a|, i requires 0 <= i < |a| => a[i] ^ b[i])
  }

  /** Encrypts or decrypts a buffer in place. */
  method Chacha(key: EncryptionKey, nonce: Nonce, buffer: array<byte>)
    modifies buffer
    ensures buffer[..] == Apply(key, nonce, old(buffer[..]))
  {
    ApplyKeystream(NewCipher(key, nonce), buffer);
  }

  /**
   Whole blocks of the key stream are generated one at a time and XORed into the
   buffer; the last block may be used in part.
   */
  method ApplyKeystream(cipher: Cipher, buffer: array<byte>)
    modifies buffer
    ensures buffer[..] == Encrypt(cipher, old(buffer[..]))
  {
    var counter: nat := 0;
    ghost var data := buffer[..];
    while BLOCK_BYTES * (counter + 1) <= buffer.Length
      invariant BLOCK_BYTES * counter <= buffer.Length
      invariant EncryptedUpTo(cipher, data, buffer[..], BLOCK_BYTES * counter)
    {
      XorNextBlock(cipher, counter, BLOCK_BYTES, data, buffer);
      counter := counter + 1;
    }
    XorNextBlock(cipher, counter, buffer.Length - BLOCK_BYTES * counter, data, buffer);
  }

  /** The buffer after its first pos bytes have been encrypted. */
  ghost predicate EncryptedUpTo(cipher: Cipher, data: Bytes, buffer: Bytes, pos: nat) {
    |buffer| == |data| && pos <= |data| && buffer == Encrypt(cipher, data)[..pos] + data[pos..]
  }

  /** XORs the n bytes that follow the first counter blocks. */
  method XorNextBlock(cipher: Cipher, counter: nat, n: nat, ghost data: Bytes, buffer: array<byte>)
    requires n <= BLOCK_BYTES && BLOCK_BYTES * counter + n <= buffer.Length
    requires EncryptedUpTo(cipher, data, buffer[..], BLOCK_BYTES * counter)
    modifies buffer
    ensures EncryptedUpTo(cipher, data, buffer[..], BLOCK_BYTES * counter + n)
  {
    ghost var before := buffer[..];
    var pos, block := BLOCK_BYTES * counter, cipher(counter)[..n];
    XorBlock(buffer, pos, block);
    assert before[..pos] == old(buffer[..pos]) && before[pos..pos + n] == old(buffer[pos..pos + n]);
    NextBlockDone(cipher, counter, n, data, before, buffer[..]);
  }

  lemma NextBlockDone(cipher: Cipher, counter: nat, n: nat, data: Bytes, before: Bytes, after: Bytes)
    requires n <= BLOCK_BYTES && BLOCK_BYTES * counter + n <= |before|
    requires EncryptedUpTo(cipher, data, before, BLOCK_BYTES * counter)
    requires var pos := BLOCK_BYTES * counter;
             after == before[..pos] + XorBytes(before[pos..pos + n], cipher(counter)[..n]) + before[pos + n..]
    ensures EncryptedUpTo(cipher, data, after, BLOCK_BYTES * counter + n)
  {
    BlockOfStream(cipher, counter, data, n);
    Spliced(before, data, Encrypt(cipher, data), BLOCK_BYTES * counter, n, after, cipher(counter)[..n]);
  }

  lemma Spliced(before: Bytes, data: Bytes, spec: Bytes, pos: nat, n: nat, after: Bytes, block: Bytes)
    requires |data| == |spec| == |before| && pos + n <= |data| && |block| == n
    requires before == spec[..pos] + data[pos..]
    requires after == before[..pos] + XorBytes(before[pos..pos + n], block) + before[pos + n..]
    requires spec[pos..pos + n] == XorBytes(data[pos..pos + n], block)
    ensures after == spec[..pos + n] + data[pos + n..]
  {
    assert before[pos..pos + n] == data[pos..pos + n];
  }

  /** XORs one block, or the part of it that is given, into the buffer. */
  method XorBlock(buffer: array<byte>, pos: nat, block: Bytes)
    requires pos + |block| <= buffer.Length
    modifies buffer
    ensures buffer[..] == old(buffer[..pos]) + XorBytes(old(buffer[pos..pos + |block|]), block)
                          + old(buffer[pos + |block|..])
  {
    ghost var before := buffer[..];
    for j := 0 to |block|
      invariant buffer[..pos] == before[..pos]
      invariant buffer[pos..pos + j] == XorBytes(before[pos..pos + j], block[..j])
      invariant buffer[pos + j..] == before[pos + j..]
    {
      assert buffer[pos + j] == buffer[pos + j..][0] == before[pos + j];
      buffer[pos + j] := buffer[pos + j] ^ block[j];
    }
    assert buffer[..] == buffer[..pos] + buffer[pos..pos + |block|] + buffer[pos + |block|..];
    assert block[..|block|] == block;
  }

  /** The bytes of one block are the key stream's bytes at that block's place. */
  lemma BlockOfStream(cipher: Cipher, counter: nat, data: Bytes, n: nat)
    requires n <= BLOCK_BYTES && BLOCK_BYTES * counter + n <= |data|
    ensures var pos := BLOCK_BYTES * counter;
            Encrypt(cipher, data)[pos..pos + n] == XorBytes(data[pos..pos + n], cipher(counter)[..n])
  {
    var pos := BLOCK_BYTES * counter;
    forall j: nat | j < n
      ensures KeyStream(cipher, pos + j) == cipher(counter)[..n][j]
    {
      StreamIndex(counter, j);
    }
  }

  lemma StreamIndex(block: nat, j: nat)
    requires j < BLOCK_BYTES
    ensures (BLOCK_BYTES * block + j) / BLOCK_BYTES == block
    ensures (BLOCK_BYTES * block + j) % BLOCK_BYTES == j
  {
  }
}
