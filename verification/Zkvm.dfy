/**
 The proven program and the layout of what it commits: the key's hash, the nonce,
 the plaintext's hash, and the ciphertext.
 */
module Zkvm {
  import opened Jobs
  import ChaCha

  const HEADER_LEN: nat := HASH_LEN + NONCE_LEN + HASH_LEN

  /** How a run of the program ends. */
  datatype Execution = Committed(output: Bytes) | Panicked

  /** The fields of a committed output. */
  datatype Output = Output(privkeyHash: Digest, nonce: Nonce, plaintextHash: Digest, ciphertext: Bytes)

  /** The bytes the fields are committed as. */
  function Emit(o: Output): Bytes {
    o.privkeyHash + o.nonce + o.plaintextHash + o.ciphertext
  }

  /** What a run on a well-formed input stands for. */
  function Statement(sha: Bytes -> Digest, key: EncryptionKey, nonce: Nonce, plaintext: Bytes): Output {
    Output(sha(key), nonce, sha(plaintext), ChaCha.Apply(key, nonce, plaintext))
  }

  /** Where the fields stand in the bytes they are committed as. */
  lemma EmitLayout(o: Output)
    ensures var bs := Emit(o);
            && |bs| == 76 + |o.ciphertext|
            && bs[..32] == o.privkeyHash && bs[32..44] == o.nonce && bs[44..76] == o.plaintextHash
            && bs[76..] == o.ciphertext
  {
  }

  /** The program as a function of the three vectors it reads. */
  function Run(sha: Bytes -> Digest, key: Bytes, nonce: Bytes, plaintext: Bytes): Execution {
    if |key| == KEY_LEN && |nonce| == NONCE_LEN then Committed(Emit(Statement(sha, key, nonce, plaintext)))
    else Panicked
  }

  /** The public output the program appends to. */
  class PublicValues {
    var buffer: Bytes

    constructor ()
      ensures buffer == []
    {
      buffer := [];
    }

    method CommitSlice(slice: Bytes)
      modifies this
      ensures buffer == old(buffer) + slice
    {
      buffer := buffer + slice;
    }
  }

  /**
   The program: it reads key, nonce and plaintext in this order, commits as it goes,
   and encrypts the plaintext in place. A missing input, a nonce that is not 12 bytes
   or a key that is not 32 bytes is a panic, and a run that panics proves nothing.
   */
  method Execute(sha: Bytes -> Digest, stdin: seq<Bytes>) returns (r: Execution)
    ensures |stdin| >= 3 ==> r == Run(sha, stdin[0], stdin[1], stdin[2])
    ensures r.Committed? <==> |stdin| >= 3 && |stdin[0]| == 32 && |stdin[1]| == 12
    ensures r.Committed? ==>
              && |r.output| == 76 + |stdin[2]|
              && r.output[..32] == sha(stdin[0])
              && r.output[32..44] == stdin[1]
              && r.output[44..76] == sha(stdin[2])
              && r.output[76..] == ChaCha.Apply(stdin[0], stdin[1], stdin[2])
  {
    if |stdin| < 3 {
      return Panicked;
    }
    var key, nonce, plaintext := stdin[0], stdin[1], stdin[2];
    var buffer := new byte[|plaintext|](i requires 0 <= i < |plaintext| => plaintext[i]);
    assert buffer[..] == plaintext;
    var out := new PublicValues();

    out.CommitSlice(sha(key));
    if |nonce| != NONCE_LEN {
      return Panicked;
    }
    out.CommitSlice(nonce);
    out.CommitSlice(sha(buffer[..]));
    if |key| != KEY_LEN {
      return Panicked;
    }
    ChaCha.Chacha(key, nonce, buffer);
    out.CommitSlice(buffer[..]);
    r := Committed(out.buffer);
    assert out.buffer == Emit(Statement(sha, key, nonce, plaintext));
    EmitLayout(Statement(sha, key, nonce, plaintext));
  }

  /** Fills a fixed-size buffer from a slice of the same length. */
  method CopyFromSlice(dst: array<byte>, src: Bytes)
    requires dst.Length == |src|
    modifies dst
    ensures dst[..] == src
  {
    for i := 0 to |src|
      invariant dst[..i] == src[..i]
    {
      dst[i] := src[i];
    }
  }

  function Parse(data: Bytes): (r: Option<Output>)
    ensures r.Some? <==> 76 <= |data|
    ensures r.Some? ==> Emit(r.value) == data
    ensures r.Some? ==> && r.value.privkeyHash == data[..32] && r.value.nonce == data[32..44]
                        && r.value.plaintextHash == data[44..76] && r.value.ciphertext == data[76..]
  {
    if |data| < HEADER_LEN then None
    else Some(Output(data[..HASH_LEN],
                     data[HASH_LEN..HASH_LEN + NONCE_LEN],
                     data[HASH_LEN + NONCE_LEN..HEADER_LEN],
                     data[HEADER_LEN..]))
  }

  method FromBytes(data: Bytes) returns (r: Result<Output, string>)
    ensures r.Ok? <==> 76 <= |data|
    ensures r.Ok? ==> Emit(r.value) == data && Parse(data) == Some(r.value)
    ensures r.Ok? ==> && r.value.privkeyHash == data[..32] && r.value.nonce == data[32..44]
                      && r.value.plaintextHash == data[44..76] && r.value.ciphertext == data[76..]
  {
    if |data| < HEADER_LEN {
      return Err("Input too short for header");
    }
    var header, ciphertext := data[..HEADER_LEN], data[HEADER_LEN..];

    var privkeyHash := new byte[HASH_LEN];
    CopyFromSlice(privkeyHash, header[..HASH_LEN]);
    var nonce := new byte[NONCE_LEN];
    CopyFromSlice(nonce, header[HASH_LEN..HASH_LEN + NONCE_LEN]);
    var plaintextHash := new byte[HASH_LEN];
    CopyFromSlice(plaintextHash, header[HASH_LEN + NONCE_LEN..HEADER_LEN]);

    var o := Output(privkeyHash[..], nonce[..], plaintextHash[..], ciphertext);
    ParseEmit(o);
    assert Emit(o) == data;
    r := Ok(o);
  }

  /** Parsing undoes emitting; with Parse's own contract, the two are inverse. */
  lemma ParseEmit(o: Output)
    ensures Parse(Emit(o)) == Some(o)
  {
    var data := Emit(o);
    assert data[..HASH_LEN] == o.privkeyHash;
    assert data[HASH_LEN..HASH_LEN + NONCE_LEN] == o.nonce;
    assert data[HASH_LEN + NONCE_LEN..HEADER_LEN] == o.plaintextHash;
    assert data[HEADER_LEN..] == o.ciphertext;
  }

  /** The program's output parses back to its statement, and decrypts to its input. */
  lemma RunDecrypts(sha: Bytes -> Digest, key: Bytes, nonce: Bytes, plaintext: Bytes)
    requires |key| == 32 && |nonce| == 12
    ensures var out := Run(sha, key, nonce, plaintext);
            && out.Committed?
            && Parse(out.output) == Some(Statement(sha, key, nonce, plaintext))
            && ChaCha.Apply(key, nonce, Parse(out.output).value.ciphertext) == plaintext
  {
    ParseEmit(Statement(sha, key, nonce, plaintext));
    ChaCha.Involution(key, nonce, plaintext);
  }
}
