/**
 What a client submits is what it gets back: the inbound handler's encryptions, sent
 through the outbound handler under the same key, are the original data, in order
 and with the original namespaces.
 */
module RoundTrip {
  import opened Jobs
  import opened Engine
  import opened Proxy
  import Atomic
  import Bincode
  import ChaCha
  import Content
  import Fine
  import Reachable
  import Zkvm

  function KeyFor(s: State, blob: Blob): Key {
    KeyOf(JobFor(s.env, blob.data))
  }

  /** The blob's data has a finished proof, and the proof makes a blob. */
  predicate Ready(s: State, crates: Crates, blob: Blob) {
    && KeyFor(s, blob) in s.finished
    && s.finished[KeyFor(s, blob)].ZkProofFinished?
    && Sealed(crates, blob, s.finished[KeyFor(s, blob)].proof).Ok?
  }

  function Encryption(s: State, crates: Crates, blob: Blob): Blob
    requires Ready(s, crates, blob)
  {
    Sealed(crates, blob, s.finished[KeyFor(s, blob)].proof).value
  }

  function DataOf(blobs: seq<Blob>): set<Bytes> {
    set b | b in blobs :: b.data
  }

  lemma OneReady(s: State, crates: Crates, blob: Blob)
    ensures SubmitOne(s, crates, blob).Forwarded? <==> Ready(s, crates, blob)
    ensures Ready(s, crates, blob) ==>
              && SubmitOne(s, crates, blob) == Forwarded([Encryption(s, crates, blob)])
              && Atomic.Requested(s, JobFor(s.env, blob.data)) == s.(submitted := s.submitted + {blob.data})
  {
  }

  /** A ready blob leaves the readiness of all blobs as it is. */
  lemma ReadyKept(s: State, s': State, crates: Crates)
    requires s'.env == s.env && s'.finished == s.finished
    ensures forall b :: Ready(s', crates, b) <==> Ready(s, crates, b)
    ensures forall b :: Ready(s, crates, b) ==> Encryption(s', crates, b) == Encryption(s, crates, b)
  {
  }

  /** What a forwarded call carries, and what it leaves. */
  ghost predicate Carries(s: State, crates: Crates, blobs: seq<Blob>, r: AfterSubmit) {
    && r.result.Forwarded?
    && r.state == s.(submitted := s.submitted + DataOf(blobs))
    && |r.result.blobs| == |blobs|
    && forall i :: 0 <= i < |blobs| ==> Ready(s, crates, blobs[i]) && r.result.blobs[i] == Encryption(s, crates, blobs[i])
  }

  lemma DataOfFirst(b: Blob, rest: seq<Blob>)
    ensures DataOf([b] + rest) == {b.data} + DataOf(rest)
  {
  }

  lemma CarriesFirst(s: State, s': State, crates: Crates, b: Blob, rest: seq<Blob>, r: AfterSubmit)
    requires s' == s.(submitted := s.submitted + {b.data}) && Ready(s, crates, b)
    requires Carries(s', crates, rest, r)
    ensures Carries(s, crates, [b] + rest, AfterSubmit(r.state, Prepend([Encryption(s, crates, b)], r.result)))
  {
    assert r.state == s.(submitted := s.submitted + DataOf([b] + rest)) by {
      DataOfFirst(b, rest);
      assert s.submitted + {b.data} + DataOf(rest) == s.submitted + ({b.data} + DataOf(rest));
    }
    forall i | 0 <= i < |[b] + rest|
      ensures Ready(s, crates, ([b] + rest)[i])
      ensures ([Encryption(s, crates, b)] + r.result.blobs)[i] == Encryption(s, crates, ([b] + rest)[i])
    {
      if i > 0 {
        assert ([b] + rest)[i] == rest[i - 1];
      }
    }
  }

  /**
   A submit call is forwarded exactly when every one of its blobs is ready. Then it
   carries their encryptions in order, and no tree, message or task has changed.
   */
  lemma {:induction false} ForwardedIff(s: State, crates: Crates, blobs: seq<Blob>)
    ensures var r := SubmitAll(s, crates, blobs);
            && (r.result.Forwarded? <==> forall b :: b in blobs ==> Ready(s, crates, b))
            && (r.result.Forwarded? ==> Carries(s, crates, blobs, r))
    decreases |blobs|
  {
    if blobs == [] {
      assert s.submitted + DataOf(blobs) == s.submitted;
    } else {
      var b, rest := blobs[0], blobs[1..];
      var s' := Atomic.Requested(s, JobFor(s.env, b.data));
      OneReady(s, crates, b);
      assert blobs == [b] + rest;
      if Ready(s, crates, b) {
        ForwardedIff(s', crates, rest);
        ReadyKept(s, s', crates);
        var r := SubmitAll(s', crates, rest);
        if r.result.Forwarded? {
          CarriesFirst(s, s', crates, b, rest, r);
        }
      }
    }
  }

  // ----- The premises -----

  ghost predicate CodecRoundTrip(crates: Crates) {
    forall p :: crates.encodeProof(p).Some? ==> crates.decodeProof(crates.encodeProof(p).value) == Some(p)
  }

  /** No two data ever submitted hash alike. */
  ghost predicate NoCollision(s: State) {
    forall a, b :: a in s.submitted && b in s.submitted && s.env.sha(a) == s.env.sha(b) ==> a == b
  }

  ghost predicate AllVerify(s: State, crates: Crates) {
    forall k :: k in s.finished && s.finished[k].ZkProofFinished? ==> crates.verifies(s.finished[k].proof)
  }

  // ----- One blob -----

  /** A ready blob's proof is about the blob's own data. */
  lemma ProofOfBlob(s: State, crates: Crates, blob: Blob) returns (o: Zkvm.Output)
    requires Content.Content(s) && Ready(s, crates, blob)
    requires NoCollision(s.(submitted := s.submitted + {blob.data}))
    ensures Zkvm.Parse(s.finished[KeyFor(s, blob)].proof.publicValues) == Some(o)
    ensures o.ciphertext == ChaCha.Apply(s.env.encryptionKey, o.nonce, blob.data)
  {
    var k := KeyFor(s, blob);
    var p := s.finished[k].proof;
    assert Content.FinishedContent(s, k);
    var data;
    o, data := Content.ProofMeans(s, k, p);
    Bincode.AnchorInjective(Anchor(s.env.sha(data)), Anchor(s.env.sha(blob.data)));
    var wide := s.(submitted := s.submitted + {blob.data});
    assert data in wide.submitted && blob.data in wide.submitted && wide.env.sha(data) == wide.env.sha(blob.data);
  }

  lemma BlobRoundTrip(s: State, crates: Crates, blob: Blob)
    requires Content.Content(s) && Ready(s, crates, blob)
    requires NoCollision(s.(submitted := s.submitted + {blob.data}))
    requires CodecRoundTrip(crates) && AllVerify(s, crates)
    ensures var sealed := Encryption(s, crates, blob);
            && sealed.namespace == blob.namespace
            && Opened(s.env.encryptionKey, crates, sealed) == Some(sealed.(data := blob.data))
  {
    var o := ProofOfBlob(s, crates, blob);
    ChaCha.Involution(s.env.encryptionKey, o.nonce, blob.data);
  }

  // ----- The whole list -----

  function Values(blobs: seq<Blob>): seq<Option<Blob>> {
    seq(|blobs|, i requires 0 <= i < |blobs| => Some(blobs[i]))
  }

  /** The opened response: the sent blobs with the original data. */
  function Plain(sealed: seq<Blob>, blobs: seq<Blob>): seq<Option<Blob>>
    requires |sealed| == |blobs|
  {
    seq(|blobs|, i requires 0 <= i < |blobs| => Some(sealed[i].(data := blobs[i].data)))
  }

  /** If every blob opens, the whole response is rewritten. */
  lemma AllOpen(key: EncryptionKey, crates: Crates, sealed: seq<Blob>, blobs: seq<Blob>, raw: Bytes)
    requires |sealed| == |blobs|
    requires forall i :: 0 <= i < |blobs| ==> Opened(key, crates, sealed[i]) == Some(sealed[i].(data := blobs[i].data))
    ensures Answered(key, crates, "blob.GetAll", Response(false, Some(Many(Values(sealed))), raw))
         == Rewritten(Many(Plain(sealed, blobs)))
  {
    var r := OpenedAll(key, crates, Values(sealed));
    assert r.Some?;
    assert r.value == Plain(sealed, blobs);
  }

  /** Forwarded blobs open to the data they were submitted with, one by one. */
  lemma ForwardedOpens(s: State, crates: Crates, blobs: seq<Blob>, i: nat)
    requires Content.Content(s) && CodecRoundTrip(crates) && AllVerify(s, crates)
    requires SubmitAll(s, crates, blobs).result.Forwarded? && i < |blobs|
    requires NoCollision(SubmitAll(s, crates, blobs).state)
    ensures |SubmitAll(s, crates, blobs).result.blobs| == |blobs|
    ensures var sealed := SubmitAll(s, crates, blobs).result.blobs[i];
            && sealed.namespace == blobs[i].namespace
            && Opened(s.env.encryptionKey, crates, sealed) == Some(sealed.(data := blobs[i].data))
  {
    ForwardedIff(s, crates, blobs);
    assert Carries(s, crates, blobs, SubmitAll(s, crates, blobs));
    assert NoCollision(s.(submitted := s.submitted + {blobs[i].data})) by {
      assert blobs[i].data in DataOf(blobs);
    }
    BlobRoundTrip(s, crates, blobs[i]);
  }

  /**
   Submit, then get all: whenever the inbound handler forwards, in any state the
   service can reach, the outbound handler gives the submitted data back.
   */
  lemma SubmitThenGetAll(s: State, crates: Crates, blobs: seq<Blob>, raw: Bytes)
    requires Reachable.Reaches(s.env, s)
    requires SubmitAll(s, crates, blobs).result.Forwarded?
    requires CodecRoundTrip(crates) && AllVerify(s, crates)
    requires NoCollision(SubmitAll(s, crates, blobs).state)
    ensures var sealed := SubmitAll(s, crates, blobs).result.blobs;
            && |sealed| == |blobs|
            && (forall i :: 0 <= i < |blobs| ==> sealed[i].namespace == blobs[i].namespace)
            && Answered(s.env.encryptionKey, crates, "blob.GetAll", Response(false, Some(Many(Values(sealed))), raw))
                 == Rewritten(Many(Plain(sealed, blobs)))
  {
    assert Content.Content(s) by {
      Reachable.ReachableIsSound(s.env, s);
    }
    var sealed := SubmitAll(s, crates, blobs).result.blobs;
    assert |sealed| == |blobs| by {
      ForwardedIff(s, crates, blobs);
    }
    forall i | 0 <= i < |blobs|
      ensures sealed[i].namespace == blobs[i].namespace
      ensures Opened(s.env.encryptionKey, crates, sealed[i]) == Some(sealed[i].(data := blobs[i].data))
    {
      ForwardedOpens(s, crates, blobs, i);
    }
    AllOpen(s.env.encryptionKey, crates, sealed, blobs, raw);
  }

  /** Submit, then get one: the same for each forwarded blob on its own. */
  lemma SubmitThenGet(s: State, crates: Crates, blobs: seq<Blob>, i: nat, raw: Bytes)
    requires Reachable.Reaches(s.env, s)
    requires SubmitAll(s, crates, blobs).result.Forwarded? && i < |blobs|
    requires CodecRoundTrip(crates) && AllVerify(s, crates)
    requires NoCollision(SubmitAll(s, crates, blobs).state)
    ensures |SubmitAll(s, crates, blobs).result.blobs| == |blobs|
    ensures var sealed := SubmitAll(s, crates, blobs).result.blobs[i];
            Answered(s.env.encryptionKey, crates, "blob.Get", Response(false, Some(One(sealed)), raw))
              == Rewritten(One(sealed.(data := blobs[i].data)))
  {
    assert Content.Content(s) by {
      Reachable.ReachableIsSound(s.env, s);
    }
    ForwardedOpens(s, crates, blobs, i);
  }

  // ----- Several threads -----

  /** Step n of the run answers a call for the blob's data with the proof. */
  ghost predicate AnsweredAt(env: Env, es: seq<Fine.Event>, n: nat, blob: Blob, p: Proof)
    requires Fine.Runs(Initial(env), es)
  {
    && n < |es| && es[n].Advance?
    && var s := Content.StateAt(Initial(env), es, n);
    && es[n].call < |s.calls|
    && s.calls[es[n].call] == ReadFinished(JobFor(env, blob.data))
    && Fine.Next(s, s.calls[es[n].call]) == Fine.Answers(HaveProof(p))
  }

  /** Whenever in an honest run of the fine machine a call is given a proof, the proof is about the blob's own data. */
  lemma AnswerOpens(env: Env, es: seq<Fine.Event>, n: nat, crates: Crates, blob: Blob, p: Proof, sealed: Blob)
    requires Fine.Runs(Initial(env), es) && Content.HonestRun(Initial(env), es)
    requires AnsweredAt(env, es, n, blob, p) && Sealed(crates, blob, p) == Ok(sealed)
    requires CodecRoundTrip(crates) && crates.verifies(p)
    requires NoCollision(Fine.After(Initial(env), es))
    ensures sealed.namespace == blob.namespace
    ensures Opened(env.encryptionKey, crates, sealed) == Some(sealed.(data := blob.data))
  {
    var s, end := Content.StateAt(Initial(env), es, n), Fine.After(Initial(env), es);
    var k := KeyFor(s, blob);
    Content.ContentAt(Initial(env), es, n);
    assert Content.KnownJob(s, s.calls[es[n].call].job);
    assert Content.FinishedContent(s, k) && s.finished[k] == ZkProofFinished(p);
    var o, data := Content.ProofMeans(s, k, p);
    Bincode.AnchorInjective(Anchor(env.sha(data)), Anchor(env.sha(blob.data)));
    assert data in end.submitted && blob.data in end.submitted && end.env.sha(data) == end.env.sha(blob.data);
    ChaCha.Involution(env.encryptionKey, o.nonce, data);
  }

  /**
   The round trip on several threads: the calls for a list's blobs may be answered at
   any moments of an honest fine run, other calls, tasks, crashes and restarts in
   between; sent on under the same key, they come back as the submitted data.
   */
  lemma FineRoundTrip(env: Env, es: seq<Fine.Event>, moments: seq<nat>, crates: Crates, blobs: seq<Blob>,
                      proofs: seq<Proof>, sealed: seq<Blob>, raw: Bytes)
    requires Fine.Runs(Initial(env), es) && Content.HonestRun(Initial(env), es)
    requires |moments| == |proofs| == |sealed| == |blobs|
    requires forall i :: 0 <= i < |blobs| ==> AnsweredAt(env, es, moments[i], blobs[i], proofs[i])
    requires forall i :: 0 <= i < |blobs| ==> Sealed(crates, blobs[i], proofs[i]) == Ok(sealed[i])
    requires CodecRoundTrip(crates) && forall p :: p in proofs ==> crates.verifies(p)
    requires NoCollision(Fine.After(Initial(env), es))
    ensures forall i :: 0 <= i < |blobs| ==> sealed[i].namespace == blobs[i].namespace
    ensures Answered(env.encryptionKey, crates, "blob.GetAll", Response(false, Some(Many(Values(sealed))), raw))
         == Rewritten(Many(Plain(sealed, blobs)))
  {
    forall i | 0 <= i < |blobs|
      ensures sealed[i].namespace == blobs[i].namespace
      ensures Opened(env.encryptionKey, crates, sealed[i]) == Some(sealed[i].(data := blobs[i].data))
    {
      AnswerOpens(env, es, moments[i], crates, blobs[i], proofs[i], sealed[i]);
    }
    AllOpen(env.encryptionKey, crates, sealed, blobs, raw);
  }

  /**
   The outbound handler does not compare keys: a proof made under one key opens to its
   data under another exactly when both key streams agree on the data's length.
   */
  lemma OtherKeyOpensIff(env: Env, key': EncryptionKey, crates: Crates, blob: Blob, p: Proof, nonce: Nonce, data: Bytes)
    requires crates.decodeProof(blob.data) == Some(p) && crates.verifies(p)
    requires p.publicValues == Zkvm.Emit(Zkvm.Statement(env.sha, env.encryptionKey, nonce, data))
    ensures Opened(key', crates, blob) == Some(blob.(data := data))
       <==> forall i :: 0 <= i < |data| ==>
              ChaCha.KeyStream(ChaCha.NewCipher(env.encryptionKey, nonce), i)
                == ChaCha.KeyStream(ChaCha.NewCipher(key', nonce), i)
  {
    Zkvm.ParseEmit(Zkvm.Statement(env.sha, env.encryptionKey, nonce, data));
    ChaCha.DecryptsUnderIff(env.encryptionKey, key', nonce, data);
  }
}
