/**
 The two handlers around the runner: the inbound one replaces every blob of a submit
 call by its verifiable encryption or bails out, the outbound one decrypts all blobs
 of a response or none. JSON is taken as parsed; what the handlers do not look at is
 an opaque rest.
 */
module Proxy {
  import opened Jobs
  import opened Engine
  import Atomic
  import Bincode
  import ChaCha
  import Runner
  import Zkvm

  datatype Blob = Blob(namespace: Bytes, data: Bytes, commitment: Bytes)

  /** What other crates compute: the proof codec, a blob's commitment, and proof verification. */
  datatype Crates = Crates(
    encodeProof: Proof -> Option<Bytes>,
    decodeProof: Bytes -> Option<Proof>,
    commitment: (Bytes, Bytes) -> Option<Bytes>,
    verifies: Proof -> bool)

  datatype HandlerError =
    | ParamsNotArray
    | ParamsNotBlobs
    | RunnerError(answer: Answer)
    | EncodeError
    | BlobError

  // ----- blob.Submit -----

  /** The blob that goes upstream in place of the client's. */
  function Sealed(crates: Crates, blob: Blob, p: Proof): Result<Blob, HandlerError> {
    match crates.encodeProof(p)
    case None => Err(EncodeError)
    case Some(data) =>
      match crates.commitment(blob.namespace, data)
      case None => Err(BlobError)
      case Some(c) => Ok(Blob(blob.namespace, data, c))
  }

  datatype Submission = Forwarded(blobs: seq<Blob>) | Waiting | Rejected(error: HandlerError)

  function Prepend(blobs: seq<Blob>, r: Submission): Submission {
    if r.Forwarded? then Forwarded(blobs + r.blobs) else r
  }

  /** What one blob contributes: its encryption, or the reason to stop. */
  function SubmitOne(s: State, crates: Crates, blob: Blob): Submission {
    match Atomic.AnswerTo(s, JobFor(s.env, blob.data))
    case HaveProof(p) =>
      (match Sealed(crates, blob, p)
       case Ok(b) => Forwarded([b])
       case Err(e) => Rejected(e))
    case NotYet => Waiting
    case a => Rejected(RunnerError(a))
  }

  datatype AfterSubmit = AfterSubmit(state: State, result: Submission)

  /** The blob loop: one request per blob, up to the first that has no encryption yet. */
  function SubmitAll(s: State, crates: Crates, blobs: seq<Blob>): AfterSubmit
    decreases |blobs|
  {
    if blobs == [] then AfterSubmit(s, Forwarded([]))
    else
      var one := SubmitOne(s, crates, blobs[0]);
      var s' := Atomic.Requested(s, JobFor(s.env, blobs[0].data));
      if one.Forwarded? then
        var rest := SubmitAll(s', crates, blobs[1..]);
        AfterSubmit(rest.state, Prepend(one.blobs, rest.result))
      else AfterSubmit(s', one)
  }

  datatype Params = Missing | NotArray | Empty | Unparsable | Blobs(blobs: seq<Blob>)

  datatype Body = Body(rpcMethod: Option<string>, params: Params, rest: Bytes)

  datatype Inbound = Forward(body: Body) | CallBack | Fail(error: HandlerError)

  function InboundResult(body: Body, r: Submission): Inbound {
    match r
    case Forwarded(blobs) => Forward(body.(params := Blobs(blobs)))
    case Waiting => CallBack
    case Rejected(e) => Fail(e)
  }

  // ----- What a submit call promises, read off the trees -----

  /** The tree entry the blob's data is looked up under. */
  function BlobKey(s: State, blob: Blob): Key {
    Bincode.EncodeAnchor(Anchor(s.env.sha(blob.data)))
  }

  /** The blob's data has a finished proof that serialises, and the serialised proof makes a blob. */
  ghost predicate CanSend(s: State, crates: Crates, blob: Blob) {
    var st := Lookup(s.finished, BlobKey(s, blob));
    && st.Some? && st.value.ZkProofFinished?
    && crates.encodeProof(st.value.proof).Some?
    && crates.commitment(blob.namespace, crates.encodeProof(st.value.proof).value).Some?
  }

  /** What goes upstream for the blob: its namespace, the proof of its data, and the commitment of both. */
  ghost predicate StandsFor(s: State, crates: Crates, blob: Blob, sent: Blob) {
    var st := Lookup(s.finished, BlobKey(s, blob));
    && st.Some? && st.value.ZkProofFinished?
    && sent.namespace == blob.namespace
    && crates.encodeProof(st.value.proof) == Some(sent.data)
    && crates.commitment(blob.namespace, sent.data) == Some(sent.commitment)
  }

  /** Why a call stops at a blob that cannot be sent: None to be called back, or the error the client is given. */
  ghost function StopReason(s: State, crates: Crates, blob: Blob): Option<HandlerError> {
    match Lookup(s.finished, BlobKey(s, blob))
    case Some(ZkProofFinished(p)) => Some(if crates.encodeProof(p).None? then EncodeError else BlobError)
    case Some(Failed(e, None)) => Some(HandlerError.RunnerError(PermanentFailure(e)))
    case Some(Failed(e, Some(_))) => Some(HandlerError.RunnerError(Retrying(e)))
    case Some(_) => Some(HandlerError.RunnerError(FinishedInvalid))
    case None =>
      match Lookup(s.queue, BlobKey(s, blob))
      case Some(LocalZkProofPending) | Some(RemoteZkProofRequesting) | Some(RemoteZkProofPending(_)) => None
      case Some(_) => Some(HandlerError.RunnerError(QueueInvalid))
      case None =>
        if s.env.proverType in ["network", "cuda", "cpu", "mock"] then None
        else Some(HandlerError.RunnerError(UnknownProver))
  }

  /** The call stops at this blob: all before it could be sent. */
  ghost predicate StopsAt(s: State, crates: Crates, blobs: seq<Blob>, i: nat) {
    && i < |blobs| && !CanSend(s, crates, blobs[i])
    && forall j :: 0 <= j < i ==> CanSend(s, crates, blobs[j])
  }

  /** The call stops at some blob, with the outcome its tree entry gives. */
  ghost predicate StopsWith(s: State, crates: Crates, blobs: seq<Blob>, i: nat, reason: Option<HandlerError>) {
    StopsAt(s, crates, blobs, i) && reason == StopReason(s, crates, blobs[i])
  }

  /** One blob sent for each of the list. */
  ghost predicate AllStandFor(s: State, crates: Crates, blobs: seq<Blob>, sent: seq<Blob>) {
    |sent| == |blobs| && forall i :: 0 <= i < |blobs| ==> StandsFor(s, crates, blobs[i], sent[i])
  }

  function ReasonOf(r: Submission): Option<HandlerError> {
    if r.Rejected? then Some(r.error) else None
  }

  ghost predicate Promised(s: State, crates: Crates, blobs: seq<Blob>, r: Submission) {
    && (r.Forwarded? <==> forall b :: b in blobs ==> CanSend(s, crates, b))
    && (r.Forwarded? ==> AllStandFor(s, crates, blobs, r.blobs))
    && (!r.Forwarded? ==> exists i: nat :: StopsWith(s, crates, blobs, i, ReasonOf(r)))
  }

  /** What one blob contributes. */
  lemma OnePromised(s: State, crates: Crates, blob: Blob)
    ensures var r := SubmitOne(s, crates, blob);
            && (r.Forwarded? <==> CanSend(s, crates, blob))
            && (r.Forwarded? ==> |r.blobs| == 1 && StandsFor(s, crates, blob, r.blobs[0]))
            && (!r.Forwarded? ==> ReasonOf(r) == StopReason(s, crates, blob))
    ensures CanSend(s, crates, blob) ==>
              Atomic.Requested(s, JobFor(s.env, blob.data)) == s.(submitted := s.submitted + {blob.data})
  {
  }

  lemma SameTrees(s: State, s': State, crates: Crates, blob: Blob)
    requires s'.env == s.env && s'.queue == s.queue && s'.finished == s.finished
    ensures CanSend(s', crates, blob) <==> CanSend(s, crates, blob)
    ensures StopReason(s', crates, blob) == StopReason(s, crates, blob)
    ensures forall sent :: StandsFor(s', crates, blob, sent) <==> StandsFor(s, crates, blob, sent)
  {
  }

  lemma StandsForCons(s: State, s': State, crates: Crates, blobs: seq<Blob>, sent: Blob, rest: seq<Blob>)
    requires blobs != [] && s'.env == s.env && s'.queue == s.queue && s'.finished == s.finished
    requires StandsFor(s, crates, blobs[0], sent) && AllStandFor(s', crates, blobs[1..], rest)
    ensures AllStandFor(s, crates, blobs, [sent] + rest)
  {
    forall i | 0 <= i < |blobs| ensures StandsFor(s, crates, blobs[i], ([sent] + rest)[i]) {
      if i > 0 {
        assert StandsFor(s', crates, blobs[1..][i - 1], rest[i - 1]);
        SameTrees(s, s', crates, blobs[i]);
      }
    }
  }

  lemma StopsCons(s: State, s': State, crates: Crates, blobs: seq<Blob>, i: nat, reason: Option<HandlerError>)
    requires blobs != [] && s'.env == s.env && s'.queue == s.queue && s'.finished == s.finished
    requires CanSend(s, crates, blobs[0]) && StopsWith(s', crates, blobs[1..], i, reason)
    ensures StopsWith(s, crates, blobs, i + 1, reason)
  {
    SameTrees(s, s', crates, blobs[i + 1]);
    forall j | 0 <= j < i + 1 ensures CanSend(s, crates, blobs[j]) {
      if j > 0 {
        assert CanSend(s', crates, blobs[1..][j - 1]);
        SameTrees(s, s', crates, blobs[j]);
      }
    }
  }

  /** The first blob can be sent: the promise for the rest, in a state with the same trees, is one for all. */
  lemma PromisedCons(s: State, s': State, crates: Crates, blobs: seq<Blob>, sent: Blob, rest: Submission)
    requires blobs != [] && s'.env == s.env && s'.queue == s.queue && s'.finished == s.finished
    requires CanSend(s, crates, blobs[0]) && StandsFor(s, crates, blobs[0], sent)
    requires Promised(s', crates, blobs[1..], rest)
    ensures Promised(s, crates, blobs, Prepend([sent], rest))
  {
    if rest.Forwarded? {
      forall b | b in blobs ensures CanSend(s, crates, b) {
        assert b == blobs[0] || b in blobs[1..];
        SameTrees(s, s', crates, b);
      }
      StandsForCons(s, s', crates, blobs, sent, rest.blobs);
    } else {
      var i: nat :| StopsWith(s', crates, blobs[1..], i, ReasonOf(rest));
      StopsCons(s, s', crates, blobs, i, ReasonOf(rest));
      assert blobs[i + 1] in blobs;
    }
  }

  /** A submit call sends the proofs of all its blobs, or stops at the first that has none. */
  lemma {:induction false} SubmitPromised(s: State, crates: Crates, blobs: seq<Blob>)
    ensures Promised(s, crates, blobs, SubmitAll(s, crates, blobs).result)
    decreases |blobs|
  {
    if blobs != [] {
      var b, one := blobs[0], SubmitOne(s, crates, blobs[0]);
      OnePromised(s, crates, b);
      if one.Forwarded? {
        var s' := Atomic.Requested(s, JobFor(s.env, b.data));
        SubmitPromised(s', crates, blobs[1..]);
        assert one.blobs == [one.blobs[0]];
        PromisedCons(s, s', crates, blobs, one.blobs[0], SubmitAll(s', crates, blobs[1..]).result);
      } else {
        assert b in blobs && StopsWith(s, crates, blobs, 0, ReasonOf(one));
      }
    }
  }

  method SubmitLoop(runner: Runner.PdaRunner, crates: Crates, blobs: seq<Blob>) returns (r: Submission)
    requires runner.up
    modifies runner
    ensures AfterSubmit(runner.View(), r) == SubmitAll(old(runner.View()), crates, blobs)
    ensures runner.up && (old(runner.Valid()) ==> runner.Valid())
  {
    ghost var spec := SubmitAll(runner.View(), crates, blobs);
    var encrypted: seq<Blob> := [];
    for i := 0 to |blobs|
      invariant runner.up && (old(runner.Valid()) ==> runner.Valid())
      invariant var rest := SubmitAll(runner.View(), crates, blobs[i..]);
                spec == AfterSubmit(rest.state, Prepend(encrypted, rest.result))
    {
      var blob := blobs[i];
      assert blobs[i..][0] == blob && blobs[i..][1..] == blobs[i + 1..];
      ghost var before := runner.View();
      var answer := runner.GetVerifiableEncryption(JobFor(runner.env, blob.data));
      match answer {
        case HaveProof(p) =>
          var b := Sealed(crates, blob, p);
          if b.Err? {
            return Rejected(b.error);
          }
          ghost var rest := SubmitAll(runner.View(), crates, blobs[i + 1..]);
          PrependTwice(encrypted, b.value, rest.result);
          encrypted := encrypted + [b.value];
        case NotYet => return Waiting;
        case _ => return Rejected(RunnerError(answer));
      }
    }
    r := Forwarded(encrypted);
  }

  lemma PrependTwice(bs: seq<Blob>, b: Blob, r: Submission)
    ensures Prepend(bs, Prepend([b], r)) == Prepend(bs + [b], r)
  {
    if r.Forwarded? {
      assert bs + ([b] + r.blobs) == (bs + [b]) + r.blobs;
    }
  }

  /** Only blob.Submit calls with a non-empty params array touch the runner; all else is forwarded as it came. */
  method InboundHandler(runner: Runner.PdaRunner, crates: Crates, body: Body) returns (requestMethod: string, r: Inbound)
    requires runner.up
    modifies runner
    ensures requestMethod == if body.rpcMethod.Some? then body.rpcMethod.value else ""
    ensures body.rpcMethod != Some("blob.Submit") || body.params.Missing? || body.params.Empty?
            ==> r == Forward(body) && runner.View() == old(runner.View())
    ensures body.rpcMethod == Some("blob.Submit") && body.params.Blobs?
            ==> runner.View() == SubmitAll(old(runner.View()), crates, body.params.blobs).state
    ensures body.rpcMethod == Some("blob.Submit") && body.params.Blobs?
            ==> && var s, blobs := old(runner.View()), body.params.blobs;
                && (r.Forward? <==> forall b :: b in blobs ==> CanSend(s, crates, b))
                && (r.Forward? ==>
                      && r.body.rpcMethod == body.rpcMethod && r.body.rest == body.rest && r.body.params.Blobs?
                      && AllStandFor(s, crates, blobs, r.body.params.blobs))
                && (r.CallBack? ==> exists i: nat :: StopsWith(s, crates, blobs, i, None))
                && (r.Fail? ==> exists i: nat :: StopsWith(s, crates, blobs, i, Some(r.error)))
    ensures body.rpcMethod == Some("blob.Submit") && (body.params.NotArray? || body.params.Unparsable?)
            ==> && r == Fail(if body.params.NotArray? then ParamsNotArray else ParamsNotBlobs)
                && runner.View() == old(runner.View())
  {
    requestMethod := if body.rpcMethod.Some? then body.rpcMethod.value else "";
    if body.rpcMethod == Some("blob.Submit") {
      match body.params {
        case Missing | Empty =>
        case NotArray => return requestMethod, Fail(ParamsNotArray);
        case Unparsable => return requestMethod, Fail(ParamsNotBlobs);
        case Blobs(blobs) =>
          SubmitPromised(runner.View(), crates, blobs);
          var s := SubmitLoop(runner, crates, blobs);
          return requestMethod, InboundResult(body, s);
      }
    }
    r := Forward(body);
  }

  // ----- blob.Get and blob.GetAll -----

  /** Verification and decryption of one blob; the rest of the blob is kept. */
  function Opened(key: EncryptionKey, crates: Crates, blob: Blob): Option<Blob> {
    match crates.decodeProof(blob.data)
    case None => None
    case Some(p) =>
      if !crates.verifies(p) then None
      else
        match Zkvm.Parse(p.publicValues)
        case None => None
        case Some(o) => Some(blob.(data := ChaCha.Apply(key, o.nonce, o.ciphertext)))
  }

  /** The blob's data is a proof that verifies and whose public values have a header. */
  predicate Openable(crates: Crates, blob: Blob) {
    var p := crates.decodeProof(blob.data);
    p.Some? && crates.verifies(p.value) && 76 <= |p.value.publicValues|
  }

  /** The blob with its data replaced by the decryption of what follows the header, under the nonce in the header. */
  ghost predicate OpensTo(key: EncryptionKey, crates: Crates, blob: Blob, plain: Blob)
    requires Openable(crates, blob)
  {
    var pv := crates.decodeProof(blob.data).value.publicValues;
    && plain.namespace == blob.namespace && plain.commitment == blob.commitment
    && |plain.data| == |pv| - 76
    && forall i :: 0 <= i < |plain.data| ==>
         plain.data[i] == pv[76 + i] ^ ChaCha.KeyStream(ChaCha.NewCipher(key, pv[32..44]), i)
  }

  lemma OpenedIff(key: EncryptionKey, crates: Crates, blob: Blob)
    ensures Opened(key, crates, blob).Some? <==> Openable(crates, blob)
    ensures Openable(crates, blob) ==> OpensTo(key, crates, blob, Opened(key, crates, blob).value)
  {
  }

  method VerifyDecryptBlob(key: EncryptionKey, crates: Crates, blob: Blob) returns (r: Option<Blob>)
    ensures r == Opened(key, crates, blob)
    ensures r.Some? <==> Openable(crates, blob)
    ensures r.Some? ==> OpensTo(key, crates, blob, r.value)
  {
    OpenedIff(key, crates, blob);
    var p := crates.decodeProof(blob.data);
    if p.None? || !crates.verifies(p.value) {
      return None;
    }
    var parsed := Zkvm.FromBytes(p.value.publicValues);
    if parsed.Err? {
      return None;
    }
    var ciphertext := parsed.value.ciphertext;
    var buffer := new byte[|ciphertext|](i requires 0 <= i < |ciphertext| => ciphertext[i]);
    assert buffer[..] == ciphertext;
    ChaCha.Chacha(key, parsed.value.nonce, buffer);
    r := Some(blob.(data := buffer[..]));
  }

  /** The response's result: absent, one blob, an array whose elements may be blobs, or something else. */
  datatype ResultField = NoResult | One(blob: Blob) | Many(blobs: seq<Option<Blob>>) | OtherResult

  datatype Response = Response(unauthorized: bool, json: Option<ResultField>, raw: Bytes)

  datatype Outbound = BadAuth | NotJson | PassThrough(raw: Bytes) | Rewritten(result: ResultField)

  /** Every element opened, in order, provided every element is a blob that opens. */
  function OpenedAll(key: EncryptionKey, crates: Crates, blobs: seq<Option<Blob>>): (r: Option<seq<Option<Blob>>>)
    ensures r.Some? <==> forall i :: 0 <= i < |blobs| ==> blobs[i].Some? && Opened(key, crates, blobs[i].value).Some?
    ensures r.Some? ==> |r.value| == |blobs|
                        && forall i :: 0 <= i < |blobs| ==> r.value[i] == Opened(key, crates, blobs[i].value)
  {
    if blobs == [] then Some([])
    else
      var last := |blobs| - 1;
      match OpenedAll(key, crates, blobs[..last])
      case None => None
      case Some(bs) =>
        if blobs[last].None? then None
        else
          match Opened(key, crates, blobs[last].value)
          case None => None
          case Some(b) => Some(bs + [Some(b)])
  }

  method DecryptLoop(key: EncryptionKey, crates: Crates, blobs: seq<Option<Blob>>) returns (r: Option<seq<Option<Blob>>>)
    ensures r == OpenedAll(key, crates, blobs)
  {
    var plaintext: seq<Option<Blob>> := [];
    for i := 0 to |blobs|
      invariant OpenedAll(key, crates, blobs[..i]) == Some(plaintext)
    {
      assert blobs[..i + 1][..i] == blobs[..i];
      if blobs[i].None? {
        return None;
      }
      var b := VerifyDecryptBlob(key, crates, blobs[i].value);
      if b.None? {
        return None;
      }
      plaintext := plaintext + [b];
    }
    assert blobs[..|blobs|] == blobs;
    r := Some(plaintext);
  }

  /** Every element is a blob that opens. */
  predicate AllOpenable(crates: Crates, blobs: seq<Option<Blob>>) {
    forall i :: 0 <= i < |blobs| ==> blobs[i].Some? && Openable(crates, blobs[i].value)
  }

  /** What a retrieved result is rewritten to; anything that does not open is not rewritten. */
  ghost predicate Retrieved(key: EncryptionKey, crates: Crates, requestMethod: string, resp: Response, r: Outbound)
    requires resp.json.Some?
  {
    var result := resp.json.value;
    && (result.NoResult? ==> r == PassThrough(resp.raw))
    && (!result.NoResult? && requestMethod != "blob.Get" && requestMethod != "blob.GetAll" ==> r == Rewritten(result))
    && (requestMethod == "blob.Get" && !(result.One? && Openable(crates, result.blob)) ==> r == PassThrough(resp.raw))
    && (requestMethod == "blob.Get" && result.One? && Openable(crates, result.blob) ==>
          r.Rewritten? && r.result.One? && OpensTo(key, crates, result.blob, r.result.blob))
    && (requestMethod == "blob.GetAll" && !(result.Many? && AllOpenable(crates, result.blobs)) ==>
          r == PassThrough(resp.raw))
    && (requestMethod == "blob.GetAll" && result.Many? && AllOpenable(crates, result.blobs) ==>
          && r.Rewritten? && r.result.Many? && |r.result.blobs| == |result.blobs|
          && forall i :: 0 <= i < |result.blobs| ==>
               r.result.blobs[i].Some? && OpensTo(key, crates, result.blobs[i].value, r.result.blobs[i].value))
  }

  lemma AnsweredRetrieved(key: EncryptionKey, crates: Crates, requestMethod: string, resp: Response)
    requires resp.json.Some?
    ensures Retrieved(key, crates, requestMethod, resp, Answered(key, crates, requestMethod, resp))
  {
    match resp.json.value
    case One(blob) => OpenedIff(key, crates, blob);
    case Many(blobs) =>
      forall i | 0 <= i < |blobs| && blobs[i].Some?
        ensures Opened(key, crates, blobs[i].value).Some? <==> Openable(crates, blobs[i].value)
        ensures Openable(crates, blobs[i].value)
                ==> OpensTo(key, crates, blobs[i].value, Opened(key, crates, blobs[i].value).value)
      {
        OpenedIff(key, crates, blobs[i].value);
      }
    case NoResult | OtherResult =>
  }

  /** A response is rewritten whole, or passed through byte for byte. */
  method OutboundHandler(key: EncryptionKey, crates: Crates, requestMethod: string, resp: Response) returns (r: Outbound)
    ensures resp.unauthorized <==> r == BadAuth
    ensures !resp.unauthorized && resp.json.None? ==> r == NotJson
    ensures !resp.unauthorized && resp.json.Some? ==>
              && r == Answered(key, crates, requestMethod, resp)
              && Retrieved(key, crates, requestMethod, resp, r)
  {
    if resp.json.Some? {
      AnsweredRetrieved(key, crates, requestMethod, resp);
    }
    if resp.unauthorized {
      return BadAuth;
    }
    if resp.json.None? {
      return NotJson;
    }
    var field := resp.json.value;
    if field.NoResult? {
      return PassThrough(resp.raw);
    }
    if requestMethod == "blob.Get" {
      if !field.One? {
        return PassThrough(resp.raw);
      }
      var b := VerifyDecryptBlob(key, crates, field.blob);
      return if b.Some? then Rewritten(One(b.value)) else PassThrough(resp.raw);
    }
    if requestMethod == "blob.GetAll" {
      if !field.Many? {
        return PassThrough(resp.raw);
      }
      var bs := DecryptLoop(key, crates, field.blobs);
      return if bs.Some? then Rewritten(Many(bs.value)) else PassThrough(resp.raw);
    }
    r := Rewritten(field);
  }

  function Answered(key: EncryptionKey, crates: Crates, requestMethod: string, resp: Response): Outbound
    requires resp.json.Some?
  {
    match resp.json.value
    case NoResult => PassThrough(resp.raw)
    case One(blob) =>
      if requestMethod == "blob.GetAll" then PassThrough(resp.raw)
      else if requestMethod != "blob.Get" then Rewritten(One(blob))
      else
        (match Opened(key, crates, blob)
         case Some(b) => Rewritten(One(b))
         case None => PassThrough(resp.raw))
    case Many(blobs) =>
      if requestMethod == "blob.Get" then PassThrough(resp.raw)
      else if requestMethod != "blob.GetAll" then Rewritten(Many(blobs))
      else
        (match OpenedAll(key, crates, blobs)
         case Some(bs) => Rewritten(Many(bs))
         case None => PassThrough(resp.raw))
    case OtherResult =>
      if requestMethod == "blob.Get" || requestMethod == "blob.GetAll" then PassThrough(resp.raw) else Rewritten(OtherResult)
  }
}
