/**
 Refinement: the two trees, read together, are one map from keys to stages of a
 job's life, and every request-atomic step is one move of that map or none. What
 holds of the moves, such as that a proof is never given up, holds of the engine.
 */
module Lifecycle {
  import opened Jobs
  import opened Engine
  import opened Atomic
  import opened UniqueDriver
  import Fine

  datatype Stage =
    | Local
    | Requesting
    | Waiting(id: RequestId)
    | Done(proof: Proof)
    | Dead(error: RunnerError)
    | Retryable(error: RunnerError)

  type Life = map<Key, Stage>

  datatype Move =
    | Stutter
    | Accept(key: Key, remote: bool)
    | Retry(key: Key)
    | Ask(key: Key, id: RequestId)
    | Prove(key: Key, proof: Proof)
    | Fail(key: Key, error: RunnerError, final: bool)

  predicate Working(st: Stage) {
    st.Local? || st.Requesting? || st.Waiting?
  }

  /** When a move may happen. A proof and a final failure allow none. */
  predicate Allowed(m: Life, mv: Move) {
    match mv
    case Stutter => true
    case Accept(k, _) => k !in m
    case Retry(k) => k in m && m[k].Retryable?
    case Ask(k, _) => k in m && m[k].Requesting?
    case Prove(k, _) => k in m && (m[k].Local? || m[k].Waiting?)
    case Fail(k, _, _) => k in m && Working(m[k])
  }

  /** A retry always goes to the network, also for a job that failed locally. */
  function Moved(m: Life, mv: Move): Life {
    match mv
    case Stutter => m
    case Accept(k, remote) => m[k := if remote then Requesting else Local]
    case Retry(k) => m[k := Requesting]
    case Ask(k, id) => m[k := Waiting(id)]
    case Prove(k, p) => m[k := Stage.Done(p)]
    case Fail(k, e, final) => m[k := if final then Dead(e) else Retryable(e)]
  }

  /** The answer a request gets from the lifecycle alone. */
  function LifeAnswer(m: Life, k: Key, proverType: string): Answer {
    if k !in m then (if proverType in ["network", "cuda", "cpu", "mock"] then NotYet else UnknownProver)
    else
      match m[k]
      case Local | Requesting | Waiting(_) => NotYet
      case Done(p) => HaveProof(p)
      case Dead(e) => PermanentFailure(e)
      case Retryable(e) => Retrying(e)
  }

  // ----- The abstraction -----

  function StageOf(st: JobStatus): Stage {
    match st
    case LocalZkProofPending => Local
    case RemoteZkProofRequesting => Requesting
    case RemoteZkProofPending(id) => Waiting(id)
    case ZkProofFinished(p) => Stage.Done(p)
    case Failed(e, None) => Dead(e)
    case Failed(e, Some(_)) => Retryable(e)
  }

  ghost function LifeOf(s: State): Life {
    map k | k in s.queue.Keys + s.finished.Keys :: StageOf(if k in s.finished then s.finished[k] else s.queue[k])
  }

  /** The move an event makes. */
  ghost function MoveOf(s: State, e: Event): Move
    requires Enabled(s, e)
  {
    match e
    case Request(job) =>
      if Starts(s, job).None? then Stutter
      else if KeyOf(job) in s.finished then Retry(KeyOf(job))
      else Accept(KeyOf(job), s.env.proverType == "network")
    case Finish(i, o) =>
      var k := KeyOf(s.tasks[i].job);
      (match o
       case Proved(p) => Prove(k, p)
       case Submitted(id) => Ask(k, id)
       case NetErr(cause) => Fail(k, ZkClientError(cause), cause in {SimulationFailed, RequestUnexecutable, RequestUnfulfillable})
       case Abandon => Stutter)
    case Receive | Begin(_) | Shutdown | Crash | Boot(_) => Stutter
  }

  // ----- Refinement -----

  /** Both transactions set the key's stage, wherever the key was before. */
  lemma MoveToQueueSets(s: State, k: Key, st: JobStatus)
    requires InProgress(st)
    ensures LifeOf(MoveToQueue(s, k, st)) == LifeOf(s)[k := StageOf(st)]
  {
  }

  lemma MoveToFinishedSets(s: State, k: Key, st: JobStatus)
    ensures LifeOf(MoveToFinished(s, k, st)) == LifeOf(s)[k := StageOf(st)]
  {
  }

  lemma SameTrees(s: State, s': State)
    requires s'.queue == s.queue && s'.finished == s.finished
    ensures LifeOf(s') == LifeOf(s)
  {
  }

  lemma RequestMoves(s: State, job: Job)
    requires Solo(s) && Fine.Typed(s) && s.up
    ensures Allowed(LifeOf(s), MoveOf(s, Request(job)))
    ensures LifeOf(Requested(s, job)) == Moved(LifeOf(s), MoveOf(s, Request(job)))
  {
    var k, heard := KeyOf(job), Heard(s, job);
    assert k in s.finished ==> Fine.FinishedStatus(s.finished[k]);
    SameTrees(s, heard);
    if Starts(s, job).Some? {
      var st := Starts(s, job).value;
      MoveToQueueSets(heard, k, st);
      SameTrees(MoveToQueue(heard, k, st), Requested(s, job));
    }
  }

  lemma FinishAllowed(s: State, i: nat, o: Outcome)
    requires Solo(s) && CanCommit(s, i, o) && s.up && Fine.Typed(s)
    ensures Allowed(LifeOf(s), MoveOf(s, Finish(i, o)))
  {
    TaskIsDriver(s, i);
    var t := s.tasks[i];
    assert TaskAgrees(s, t) && Fine.TaskTyped(t);
  }

  lemma FinishMoves(s: State, i: nat, o: Outcome)
    requires CanCommit(s, i, o) && s.up
    ensures LifeOf(Atomic.Done(s, i, o)) == Moved(LifeOf(s), MoveOf(s, Finish(i, o)))
  {
    var k, s' := KeyOf(s.tasks[i].job), Atomic.Done(s, i, o);
    match o
    case Proved(p) =>
      MoveToFinishedSets(s, k, ZkProofFinished(p));
      SameTrees(MoveToFinished(s, k, ZkProofFinished(p)), s');
    case NetErr(cause) =>
      MoveToFinishedSets(s, k, FailureStatus(cause));
      SameTrees(MoveToFinished(s, k, FailureStatus(cause)), s');
    case Submitted(id) =>
      MoveToQueueSets(s, k, RemoteZkProofPending(id));
      SameTrees(MoveToQueue(s, k, RemoteZkProofPending(id)), s');
    case Abandon => SameTrees(s, s');
  }

  /** Every request-atomic step is an allowed move of the lifecycle, or a stutter. */
  lemma StepRefines(s: State, e: Event)
    requires Solo(s) && Fine.Inv(s) && Enabled(s, e)
    ensures Allowed(LifeOf(s), MoveOf(s, e))
    ensures LifeOf(Apply(s, e)) == Moved(LifeOf(s), MoveOf(s, e))
  {
    match e
    case Request(job) => RequestMoves(s, job);
    case Finish(i, o) =>
      FinishAllowed(s, i, o);
      FinishMoves(s, i, o);
    case Boot(order) =>
      Fine.BootIff(s, order);
      SameTrees(s, Apply(s, e));
    case Receive | Begin(_) | Shutdown | Crash => SameTrees(s, Apply(s, e));
  }

  /** Looking into two trees, one after the other, is looking into one. */
  lemma AnswerRefines(s: State, job: Job)
    requires Solo(s) && Fine.Inv(s)
    ensures AnswerTo(s, job) == LifeAnswer(LifeOf(s), KeyOf(job), s.env.proverType)
  {
    var k := KeyOf(job);
    assert k in s.finished ==> Fine.FinishedStatus(s.finished[k]);
    assert k in s.queue ==> InProgress(s.queue[k]);
  }

  ghost predicate LifeRuns(m: Life, mvs: seq<Move>)
    decreases |mvs|
  {
    mvs == [] || (Allowed(m, mvs[0]) && LifeRuns(Moved(m, mvs[0]), mvs[1..]))
  }

  function LifeAfter(m: Life, mvs: seq<Move>): Life
    decreases |mvs|
  {
    if mvs == [] then m else LifeAfter(Moved(m, mvs[0]), mvs[1..])
  }

  ghost function Moves(s: State, es: seq<Event>): seq<Move>
    requires Runs(s, es)
    decreases |es|
  {
    if es == [] then [] else [MoveOf(s, es[0])] + Moves(Apply(s, es[0]), es[1..])
  }

  /** Every request-atomic run is a run of the lifecycle. */
  lemma {:induction false} RunRefines(s: State, es: seq<Event>)
    requires Solo(s) && Fine.Inv(s) && Runs(s, es)
    ensures LifeRuns(LifeOf(s), Moves(s, es))
    ensures LifeOf(After(s, es)) == LifeAfter(LifeOf(s), Moves(s, es))
    decreases |es|
  {
    if es != [] {
      var s' := Apply(s, es[0]);
      StepRefines(s, es[0]);
      SoloStep(s, es[0]);
      InvStep(s, es[0]);
      RunRefines(s', es[1..]);
      assert Moves(s, es)[1..] == Moves(s', es[1..]);
    }
  }

  // ----- What follows for the engine -----

  predicate Final(st: Stage) {
    st.Done? || st.Dead?
  }

  lemma {:induction false} FinalStays(m: Life, mvs: seq<Move>, k: Key)
    requires LifeRuns(m, mvs) && k in m && Final(m[k])
    ensures k in LifeAfter(m, mvs) && LifeAfter(m, mvs)[k] == m[k]
    decreases |mvs|
  {
    if mvs != [] {
      FinalStays(Moved(m, mvs[0]), mvs[1..], k);
    }
  }

  /** No accepted key is ever local again once it has left the local stage. */
  lemma {:induction false} LocalOnlyFirst(m: Life, mvs: seq<Move>, k: Key)
    requires LifeRuns(m, mvs) && k in m && !m[k].Local?
    ensures k in LifeAfter(m, mvs) && !LifeAfter(m, mvs)[k].Local?
    decreases |mvs|
  {
    if mvs != [] {
      LocalOnlyFirst(Moved(m, mvs[0]), mvs[1..], k);
    }
  }

  /**
   Permanence: a finished proof or a final failure is there, unchanged, after every
   further run, crashes included, and every later request is answered from it.
   */
  lemma Permanence(s: State, es: seq<Event>, job: Job)
    requires Solo(s) && Fine.Inv(s) && Runs(s, es)
    requires KeyOf(job) in s.finished && Final(StageOf(s.finished[KeyOf(job)]))
    ensures var s' := After(s, es); var st := s.finished[KeyOf(job)];
            && Lookup(s'.finished, KeyOf(job)) == Some(st)
            && AnswerTo(s', job) == (if st.ZkProofFinished? then HaveProof(st.proof) else PermanentFailure(st.error))
  {
    var s', k := After(s, es), KeyOf(job);
    RunRefines(s, es);
    SoloAlways(s, es);
    assert LifeOf(s)[k] == StageOf(s.finished[k]);
    FinalStays(LifeOf(s), Moves(s, es), k);
    StageDetermines(s', k, s.finished[k]);
  }

  /** In the finished tree, a final stage determines the status. */
  lemma StageDetermines(s: State, k: Key, st: JobStatus)
    requires Fine.Typed(s) && k in LifeOf(s) && Final(StageOf(st)) && LifeOf(s)[k] == StageOf(st)
    ensures Lookup(s.finished, k) == Some(st)
  {
    assert k in s.queue ==> InProgress(s.queue[k]);
  }

  /** A job that fails locally with a retryable network error is retried on the network, whatever SP1_PROVER says. */
  lemma LocalFailureRetriesRemotely(s: State, i: nat, cause: NetworkError)
    requires Solo(s) && Fine.Inv(s) && s.up
    requires i < |s.tasks| && s.tasks[i].Driving? && s.tasks[i].status.LocalZkProofPending?
    requires cause in {RequestTimedOut, RpcError, Other}
    ensures var s' := Atomic.Done(s, i, NetErr(cause)); var job := s.tasks[i].job;
            && AnswerTo(s', job) == Retrying(ZkClientError(cause))
            && Requested(s', job).queue[KeyOf(job)] == RemoteZkProofRequesting
  {
  }
}
