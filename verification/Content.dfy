/**
 Content addressing in the fine machine: a proof found under a key is a proof about
 data whose hash that key encodes, in every run, crashes included, as long as the
 provers are honest and jobs are built from blobs the way the submit handler does.
 */
module Content {
  import opened Jobs
  import opened Engine
  import opened Fine
  import Bincode
  import ChaCha
  import Zkvm

  /** What is assumed of the outside: callers build jobs from data, provers prove what they were given. */
  ghost predicate Honest(s: State, e: Event)
    requires Enabled(s, e)
  {
    match e
    case Arrive(job) => job == JobFor(s.env, job.input.data)
    case Commit(i, o) => HonestOutcome(s, s.tasks[i], o)
    case _ => true
  }

  ghost predicate HonestRun(s: State, es: seq<Event>)
    requires Runs(s, es)
    decreases |es|
  {
    es == [] || (Honest(s, es[0]) && HonestRun(Apply(s, es[0]), es[1..]))
  }

  /** The data is known to the service and is what the key stands for. */
  ghost predicate Names(s: State, k: Key, data: Bytes) {
    data in s.submitted && k == KeyOf(JobFor(s.env, data))
  }

  ghost predicate KnownJob(s: State, job: Job) {
    job == JobFor(s.env, job.input.data) && job.input.data in s.submitted
  }

  ghost predicate KnownRequest(s: State, k: Key, id: RequestId) {
    id in s.network && Names(s, k, s.network[id])
  }

  ghost predicate ProofFor(s: State, k: Key, p: Proof) {
    exists data :: Names(s, k, data) && Attests(s.env, p, data)
  }

  ghost predicate KnownMessage(s: State, m: Message) {
    m.Some? ==> KnownJob(s, m.value)
  }

  ghost predicate KnownTask(s: State, t: Task) {
    && KnownJob(s, t.job)
    && (t.Driving? && t.status.RemoteZkProofPending? ==> KnownRequest(s, KeyOf(t.job), t.status.id))
  }

  ghost predicate QueueContent(s: State, k: Key)
    requires k in s.queue
  {
    s.queue[k].RemoteZkProofPending? ==> KnownRequest(s, k, s.queue[k].id)
  }

  ghost predicate FinishedContent(s: State, k: Key)
    requires k in s.finished
  {
    s.finished[k].ZkProofFinished? ==> ProofFor(s, k, s.finished[k].proof)
  }

  ghost predicate Content(s: State) {
    && (forall k :: k in s.queue ==> QueueContent(s, k))
    && (forall k :: k in s.finished ==> FinishedContent(s, k))
    && (forall m :: m in s.channel ==> KnownMessage(s, m))
    && (forall t :: t in s.tasks ==> KnownTask(s, t))
    && (forall c :: c in s.calls ==> KnownJob(s, c.job))
  }

  /** What the service knows only grows, and a request id keeps its data. */
  ghost predicate KnowsMore(s: State, s': State) {
    && s'.env == s.env
    && s.submitted <= s'.submitted
    && (forall id :: id in s.network ==> id in s'.network && s'.network[id] == s.network[id])
  }

  lemma KnowsMoreStep(s: State, e: Event)
    requires Enabled(s, e) && Honest(s, e)
    ensures KnowsMore(s, Apply(s, e))
  {
  }

  lemma {:induction false} KnowsMoreAlways(s: State, es: seq<Event>)
    requires Runs(s, es) && HonestRun(s, es)
    ensures KnowsMore(s, After(s, es))
    decreases |es|
  {
    if es != [] {
      KnowsMoreStep(s, es[0]);
      KnowsMoreAlways(Apply(s, es[0]), es[1..]);
    }
  }

  lemma KnownStays(s: State, s': State, k: Key)
    requires KnowsMore(s, s')
    ensures forall id :: KnownRequest(s, k, id) ==> KnownRequest(s', k, id)
    ensures forall p :: ProofFor(s, k, p) ==> ProofFor(s', k, p)
  {
    forall p | ProofFor(s, k, p) ensures ProofFor(s', k, p) {
      var data :| Names(s, k, data) && Attests(s.env, p, data);
      assert Names(s', k, data) && Attests(s'.env, p, data);
    }
  }

  /** A step's effect on one part of the state: everything there was there, or is new and known. */
  lemma ContentCarried(s: State, s': State)
    requires Content(s) && KnowsMore(s, s')
    requires forall k :: k in s'.queue ==> (k in s.queue && s'.queue[k] == s.queue[k]) || QueueContent(s', k)
    requires forall k :: k in s'.finished ==> (k in s.finished && s'.finished[k] == s.finished[k]) || FinishedContent(s', k)
    requires forall m :: m in s'.channel ==> m in s.channel || KnownMessage(s', m)
    requires forall t :: t in s'.tasks ==> t in s.tasks || KnownTask(s', t)
    requires forall c :: c in s'.calls ==> c in s.calls || KnownJob(s', c.job)
    ensures Content(s')
  {
    forall k | k in s'.queue ensures QueueContent(s', k) {
      KnownStays(s, s', k);
    }
    forall k | k in s'.finished ensures FinishedContent(s', k) {
      KnownStays(s, s', k);
    }
    forall t | t in s'.tasks ensures KnownTask(s', t) {
      KnownStays(s, s', KeyOf(t.job));
    }
  }

  lemma NextKeepsJob(s: State, c: Call)
    ensures Next(s, c).Goes? ==> Next(s, c).call.job == c.job
  {
  }

  lemma ContentEffect(s: State, c: Call)
    requires Content(s) && CallTyped(c) && KnownJob(s, c.job)
    ensures Content(Effect(s, c))
  {
    ContentCarried(s, Effect(s, c));
  }

  lemma ContentAdvance(s: State, i: nat)
    requires Content(s) && Typed(s) && i < |s.calls|
    ensures Content(Advanced(s, i))
  {
    var c := s.calls[i];
    var s' := Effect(s, c);
    assert KnownJob(s, c.job) && CallTyped(c);
    ContentEffect(s, c);
    NextKeepsJob(s, c);
    assert s'.calls == s.calls && KnownJob(s', c.job);
    ContentCarried(s', Advanced(s, i));
  }

  lemma ContentBegin(s: State, i: nat)
    requires Content(s) && i < |s.tasks|
    ensures Content(Began(s, i))
  {
    assert KnownTask(s, s.tasks[i]);
    ContentCarried(s, Began(s, i));
  }

  lemma ContentCommit(s: State, i: nat, o: Outcome)
    requires Content(s) && CanCommit(s, i, o) && HonestOutcome(s, s.tasks[i], o)
    ensures Content(Committed(s, i, o))
  {
    var t, s' := s.tasks[i], Committed(s, i, o);
    var k := KeyOf(t.job);
    assert KnownTask(s, t);
    if o.Proved? {
      var data := if t.status.RemoteZkProofPending? then s.network[t.status.id] else t.job.input.data;
      assert Names(s', k, data) && Attests(s'.env, o.proof, data);
    }
    ContentCarried(s, s');
  }

  lemma ContentArrive(s: State, job: Job)
    requires Content(s) && job == JobFor(s.env, job.input.data)
    ensures Content(Arrived(s, job))
  {
    ContentCarried(s, Arrived(s, job));
  }

  lemma ContentReceive(s: State)
    requires Content(s) && s.channel != []
    ensures Content(Received(s))
  {
    assert KnownMessage(s, s.channel[0]);
    ContentCarried(s, Received(s));
  }

  lemma ContentResend(s: State, i: nat)
    requires Content(s) && i < |s.tasks|
    ensures Content(Resent(s, i))
  {
    assert KnownTask(s, s.tasks[i]);
    ContentCarried(s, Resent(s, i));
  }

  lemma ContentShutdown(s: State)
    requires Content(s)
    ensures Content(Sent(s, None))
  {
    ContentCarried(s, Sent(s, None));
  }

  lemma ContentProcess(s: State, e: Event)
    requires Inv(s) && Content(s) && Enabled(s, e) && (e.Crash? || e.Boot?)
    ensures Content(Apply(s, e))
  {
    if e.Boot? {
      BootIff(s, e.order);
    }
    ContentCarried(s, Apply(s, e));
  }

  lemma ContentStep(s: State, e: Event)
    requires Inv(s) && Content(s) && Enabled(s, e) && Honest(s, e)
    ensures Content(Apply(s, e))
  {
    match e
    case Arrive(job) => ContentArrive(s, job);
    case Advance(i) => ContentAdvance(s, i);
    case Receive => ContentReceive(s);
    case Begin(i) => ContentBegin(s, i);
    case Commit(i, o) => ContentCommit(s, i, o);
    case Resend(i) => ContentResend(s, i);
    case Shutdown => ContentShutdown(s);
    case Crash | Boot(_) => ContentProcess(s, e);
  }

  lemma {:induction false} ContentAlways(s: State, es: seq<Event>)
    requires Inv(s) && Content(s) && Runs(s, es) && HonestRun(s, es)
    ensures Content(After(s, es))
    decreases |es|
  {
    if es != [] {
      ContentStep(s, es[0]);
      InvStep(s, es[0]);
      ContentAlways(Apply(s, es[0]), es[1..]);
    }
  }

  /** The state after the first n steps of a run. */
  ghost function StateAt(s: State, es: seq<Event>, n: nat): State
    requires Runs(s, es) && n <= |es|
    decreases n
  {
    if n == 0 then s else StateAt(Apply(s, es[0]), es[1..], n - 1)
  }

  /** At every moment of an honest run, and what is known then is known to the end. */
  lemma {:induction false} ContentAt(s: State, es: seq<Event>, n: nat)
    requires Inv(s) && Content(s) && Runs(s, es) && HonestRun(s, es) && n <= |es|
    ensures Content(StateAt(s, es, n)) && StateAt(s, es, n).env == s.env
    ensures KnowsMore(StateAt(s, es, n), After(s, es))
    decreases n
  {
    if n == 0 {
      KnowsMoreAlways(s, es);
    } else {
      ContentStep(s, es[0]);
      InvStep(s, es[0]);
      KnowsMoreStep(s, es[0]);
      ContentAt(Apply(s, es[0]), es[1..], n - 1);
    }
  }

  /** What a proof for a key says, read back from its public values. */
  lemma ProofMeans(s: State, k: Key, p: Proof) returns (o: Zkvm.Output, data: Bytes)
    requires ProofFor(s, k, p)
    ensures Zkvm.Parse(p.publicValues) == Some(o)
    ensures data in s.submitted && o.plaintextHash == s.env.sha(data)
    ensures k == Bincode.EncodeAnchor(Anchor(o.plaintextHash))
    ensures o.privkeyHash == s.env.sha(s.env.encryptionKey)
    ensures o.ciphertext == ChaCha.Apply(s.env.encryptionKey, o.nonce, data)
  {
    data :| Names(s, k, data) && Attests(s.env, p, data);
    var nonce: Nonce :|
      p.publicValues == Zkvm.Emit(Zkvm.Statement(s.env.sha, s.env.encryptionKey, nonce, data));
    o := Zkvm.Statement(s.env.sha, s.env.encryptionKey, nonce, data);
    Zkvm.ParseEmit(o);
  }

  /** A proof and a key belong together: read from the public values, the plaintext hash is the key's anchor. */
  ghost predicate Addressed(s: State, k: Key, p: Proof) {
    var parsed := Zkvm.Parse(p.publicValues);
    && parsed.Some?
    && k == Bincode.EncodeAnchor(Anchor(parsed.value.plaintextHash))
    && exists data :: data in s.submitted && s.env.sha(data) == parsed.value.plaintextHash
                      && parsed.value.ciphertext == ChaCha.Apply(s.env.encryptionKey, parsed.value.nonce, data)
  }

  /** Content addressing, for every honest run from an empty database. */
  lemma ContentAddressing(env: Env, es: seq<Event>, k: Key)
    requires Runs(Initial(env), es) && HonestRun(Initial(env), es)
    ensures var s := After(Initial(env), es);
            k in s.finished && s.finished[k].ZkProofFinished? ==> Addressed(s, k, s.finished[k].proof)
  {
    var s := After(Initial(env), es);
    ContentAlways(Initial(env), es);
    if k in s.finished && s.finished[k].ZkProofFinished? {
      assert FinishedContent(s, k);
      var o, data := ProofMeans(s, k, s.finished[k].proof);
    }
  }
}
