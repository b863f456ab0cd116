/**
 The proof-job engine as a state machine over values: the two persistent trees, the
 worker's channel, the spawned tasks and the client calls in progress. This module
 holds the state and the effects both granularities share; the machines that say
 how far one step reaches are in Fine and Atomic.
 */
module Engine {
  import opened Jobs
  import opened Sums
  import Bincode
  import Recovery
  import Zkvm

  type Key = Bytes
  type Tree = map<Key, JobStatus>

  /** A channel message: a job, or None to stop the worker. */
  type Message = Option<Job>

  /** A spawned prove(): before its queue read, waiting for a prover, or about to re-send its job. */
  datatype Task = Spawned(job: Job) | Driving(job: Job, status: JobStatus) | Resending(job: Job)

  /** A get_verifiable_encryption() in progress, named by what it does next. */
  datatype Call =
    | ReadFinished(job: Job)
    | ReadQueue(job: Job)
    | InsertQueue(job: Job, status: JobStatus)
    | MoveForRetry(job: Job, status: JobStatus, error: RunnerError)
    | SendJob(job: Job, answer: Answer)

  /**
   The engine. The trees and the prover network outlive the process. The network
   maps every request id it issued to the data submitted under it; submitted is the
   history of all data the service was ever asked to encrypt.
   */
  datatype State = State(
    env: Env,
    up: bool,
    queue: Tree,
    finished: Tree,
    channel: seq<Message>,
    tasks: seq<Task>,
    calls: seq<Call>,
    network: map<RequestId, Bytes>,
    submitted: set<Bytes>)

  function Initial(env: Env): State {
    State(env, true, map[], map[], [], [], [], map[], {})
  }

  function KeyOf(job: Job): Key {
    Bincode.EncodeAnchor(job.anchor)
  }

  /** Every key the service has accepted a job for. */
  function Accepted(s: State): set<Key> {
    s.queue.Keys + s.finished.Keys
  }

  function Lookup(t: Tree, k: Key): Option<JobStatus> {
    if k in t then Some(t[k]) else None
  }

  /** The statuses prove() works on. */
  predicate InProgress(st: JobStatus) {
    st.LocalZkProofPending? || st.RemoteZkProofRequesting? || st.RemoteZkProofPending?
  }

  /** The status a job is finalized with after a network error. */
  function FailureStatus(cause: NetworkError): JobStatus {
    match cause
    case SimulationFailed | RequestUnexecutable | RequestUnfulfillable => Failed(ZkClientError(cause), None)
    case RequestTimedOut | RpcError | Other => Failed(ZkClientError(cause), Some(RemoteZkProofRequesting))
  }

  // ----- Effects of the two transactions and of the channel -----

  /** finalize_job: out of the queue, into the finished tree, atomically. */
  function MoveToFinished(s: State, k: Key, st: JobStatus): State {
    s.(queue := s.queue - {k}, finished := s.finished[k := st])
  }

  /** The transaction of send_job_with_new_status: out of the finished tree, into the queue. */
  function MoveToQueue(s: State, k: Key, st: JobStatus): State {
    s.(finished := s.finished - {k}, queue := s.queue[k := st])
  }

  function Sent(s: State, m: Message): State {
    s.(channel := s.channel + [m])
  }

  /** The process is gone: only the trees, the network and the history remain. */
  function Exited(s: State): State {
    s.(up := false, channel := [], tasks := [], calls := [])
  }

  // ----- Worker and task steps -----

  /** The worker takes one message: it spawns a task, or ends the process. */
  function Received(s: State): State
    requires s.channel != []
  {
    match s.channel[0]
    case Some(job) => s.(channel := s.channel[1..], tasks := s.tasks + [Spawned(job)])
    case None => Exited(s)
  }

  /** A task reads its queue entry: it goes on with the status found, or ends. */
  function Began(s: State, i: nat): State
    requires i < |s.tasks|
  {
    var job := s.tasks[i].job;
    match Lookup(s.queue, KeyOf(job))
    case Some(st) =>
      if InProgress(st) then s.(tasks := s.tasks[i := Driving(job, st)]) else s.(tasks := Without(s.tasks, i))
    case None => s.(tasks := Without(s.tasks, i))
  }

  /** A task finalizes its job and ends. */
  function Settled(s: State, i: nat, st: JobStatus): State
    requires i < |s.tasks|
  {
    MoveToFinished(s, KeyOf(s.tasks[i].job), st).(tasks := Without(s.tasks, i))
  }

  /** The outcomes the prover call made in a given status can have. */
  predicate Fits(st: JobStatus, o: Outcome) {
    match o
    case Proved(_) => st.LocalZkProofPending? || st.RemoteZkProofPending?
    case Submitted(_) => st.RemoteZkProofRequesting?
    case NetErr(_) | Abandon => true
  }

  predicate CanCommit(s: State, i: nat, o: Outcome) {
    i < |s.tasks| && s.tasks[i].Driving? && Fits(s.tasks[i].status, o)
  }

  /** A prover call ends: one transaction at most; a job that goes on is still to be re-sent. */
  function Committed(s: State, i: nat, o: Outcome): State
    requires CanCommit(s, i, o)
  {
    var job := s.tasks[i].job;
    match o
    case Proved(p) => Settled(s, i, ZkProofFinished(p))
    case NetErr(cause) => Settled(s, i, FailureStatus(cause))
    case Abandon => s.(tasks := Without(s.tasks, i))
    case Submitted(id) =>
      MoveToQueue(s, KeyOf(job), RemoteZkProofPending(id)).(
        tasks := s.tasks[i := Resending(job)],
        network := s.network[id := job.input.data])
  }

  /** A task puts its job back on the channel and ends. */
  function Resent(s: State, i: nat): State
    requires i < |s.tasks|
  {
    Sent(s, Some(s.tasks[i].job)).(tasks := Without(s.tasks, i))
  }

  // ----- Start-up -----

  /** The order in which the queue tree is iterated. */
  ghost predicate Enumerates(order: seq<Key>, t: Tree) {
    && (forall i, j :: 0 <= i < j < |order| ==> order[i] != order[j])
    && (forall k :: k in order <==> k in t)
  }

  function Entries(order: seq<Key>, t: Tree): seq<Recovery.Entry> {
    seq(|order|, i requires 0 <= i < |order| => Recovery.Entry(order[i], Lookup(t, order[i])))
  }

  /** A process start: it serves if the recovery loop comes to its end, and is gone again otherwise. */
  function Booted(s: State, order: seq<Key>): State {
    match Recovery.Run(Entries(order, s.queue))
    case Sent(jobs) => s.(up := true, channel := seq(|jobs|, i requires 0 <= i < |jobs| => Some(jobs[i])))
    case Panicked => s
  }

  // ----- What oracles are trusted for -----

  /** The proof is of a run of the program under the service's key on this data. */
  ghost predicate Attests(env: Env, p: Proof, data: Bytes) {
    exists nonce: Nonce :: p.publicValues == Zkvm.Emit(Zkvm.Statement(env.sha, env.encryptionKey, nonce, data))
  }

  /**
   A local prover proves the input it was given; the network proves the input
   submitted under the id, and does not issue an id twice.
   */
  ghost predicate HonestOutcome(s: State, t: Task, o: Outcome)
    requires t.Driving?
  {
    match o
    case Proved(p) =>
      if t.status.RemoteZkProofPending? then
        t.status.id in s.network ==> Attests(s.env, p, s.network[t.status.id])
      else Attests(s.env, p, t.job.input.data)
    case Submitted(id) => id !in s.network
    case NetErr(_) | Abandon => true
  }

  /** An id longer than all issued ones is new: the network always has one to give. */
  lemma {:induction false} LongerThanAll(ids: set<RequestId>) returns (n: nat)
    ensures forall id :: id in ids ==> |id| < n
  {
    if ids == {} {
      n := 0;
    } else {
      var id :| id in ids;
      var m := LongerThanAll(ids - {id});
      n := if m <= |id| then |id| + 1 else m;
    }
  }

  lemma FreshId(s: State) returns (id: RequestId)
    ensures id !in s.network
  {
    var n := LongerThanAll(s.network.Keys);
    id := seq(n, _ => 0);
    assert |id| == n;
  }

  // ----- Drivers -----

  ghost function MessageFor(k: Key): Message -> nat {
    (m: Message) => if m.Some? && KeyOf(m.value) == k then 1 else 0
  }

  ghost function TaskFor(k: Key): Task -> nat {
    (t: Task) => if KeyOf(t.job) == k then 1 else 0
  }

  ghost function SendFor(k: Key): Call -> nat {
    (c: Call) => if c.SendJob? && KeyOf(c.job) == k then 1 else 0
  }

  /** How many things will still bring prove() to work on key k: messages, tasks, and calls about to send. */
  ghost function Drivers(s: State, k: Key): nat {
    Sum(s.channel, MessageFor(k)) + Sum(s.tasks, TaskFor(k)) + Sum(s.calls, SendFor(k))
  }
}
