/**
 The runner object: the two trees, the channel and the spawned tasks, updated in
 place by the methods of the service. On the object's view a method is one step of the
 request-atomic machine or a part of one; the worker's loop is a run of receive steps.
 */
module Runner {
  import opened Jobs
  import opened Sums
  import opened Engine
  import Atomic
  import Bincode
  import Fine
  import Healing
  import Recovery
  import UniqueDriver

  class PdaRunner {
    const env: Env
    var up: bool
    var queueDb: Tree
    var finishedDb: Tree
    var channel: seq<Message>
    var tasks: seq<Task>
    ghost var network: map<RequestId, Bytes>
    ghost var submitted: set<Bytes>

    ghost function View(): State
      reads this
    {
      State(env, up, queueDb, finishedDb, channel, tasks, [], network, submitted)
    }

    /** What every request-atomic step keeps. */
    ghost predicate Valid()
      reads this
    {
      UniqueDriver.Solo(View()) && Fine.Inv(View())
    }

    constructor (env: Env)
      ensures View() == Initial(env) && Valid()
    {
      this.env := env;
      up, queueDb, finishedDb, channel, tasks := true, map[], map[], [], [];
      network, submitted := map[], {};
    }

    /** Looks a job up, starts it if it is new, and restarts it if it failed retryably. */
    method GetVerifiableEncryption(job: Job) returns (r: Answer)
      requires up
      modifies this
      ensures View() == Atomic.Requested(old(View()), job)
      ensures r == Atomic.AnswerTo(old(View()), job)
      ensures old(Valid()) ==> Valid()
    {
      ghost var s := View();
      var k := Bincode.EncodeAnchor(job.anchor);
      submitted := submitted + {job.input.data};
      r := LookUpOrStart(k, job);
      if Fine.Inv(s) && UniqueDriver.Solo(s) {
        UniqueDriver.SoloStep(s, Atomic.Request(job));
        UniqueDriver.InvStep(s, Atomic.Request(job));
      }
    }

    method LookUpOrStart(k: Key, job: Job) returns (r: Answer)
      requires k == KeyOf(job) && job.input.data in submitted
      modifies this
      ensures View() == Atomic.Requested(old(View()), job)
      ensures r == Atomic.AnswerTo(old(View()), job)
    {
      assert Atomic.Heard(View(), job) == View();
      if k in finishedDb {
        match finishedDb[k]
        case ZkProofFinished(p) => return HaveProof(p);
        case Failed(e, None) => return PermanentFailure(e);
        case Failed(e, Some(st)) =>
          SendJobWithNewStatus(k, st, job);
          return Retrying(e);
        case _ => return FinishedInvalid;
      }
      if k in queueDb {
        return if InProgress(queueDb[k]) then NotYet else QueueInvalid;
      }
      match InitialStatus(env.proverType)
      case None => return UnknownProver;
      case Some(st) =>
        assert finishedDb - {k} == finishedDb;
        queueDb := queueDb[k := st];
        channel := channel + [Some(job)];
        return NotYet;
    }

    /** One transaction: out of the queue, into the finished tree. */
    method FinalizeJob(k: Key, st: JobStatus)
      modifies this
      ensures View() == MoveToFinished(old(View()), k, st)
    {
      queueDb := queueDb - {k};
      finishedDb := finishedDb[k := st];
    }

    /** One transaction: out of the finished tree, into the queue; then the job is sent. */
    method SendJobWithNewStatus(k: Key, st: JobStatus, job: Job)
      modifies this
      ensures View() == Sent(MoveToQueue(old(View()), k, st), Some(job))
    {
      finishedDb := finishedDb - {k};
      queueDb := queueDb[k := st];
      channel := channel + [Some(job)];
    }

    /** Finalizes a job whose prover call ended in a network error. */
    method HandleZkClientError(cause: NetworkError, k: Key) returns (e: RunnerError)
      modifies this
      ensures View() == MoveToFinished(old(View()), k, FailureStatus(cause))
      ensures e == ZkClientError(cause)
    {
      e := ZkClientError(cause);
      match cause {
        case SimulationFailed | RequestUnexecutable | RequestUnfulfillable =>
          FinalizeJob(k, Failed(e, None));
        case RequestTimedOut | RpcError | Other =>
          FinalizeJob(k, Failed(e, Some(RemoteZkProofRequesting)));
      }
    }

    /** prove() up to its prover call. */
    method ProveBegin(i: nat)
      requires up && i < |tasks| && tasks[i].Spawned?
      modifies this
      ensures View() == Began(old(View()), i)
      ensures old(Valid()) ==> Valid()
    {
      ghost var s := View();
      var job := tasks[i].job;
      var k := Bincode.EncodeAnchor(job.anchor);
      if k in queueDb && InProgress(queueDb[k]) {
        tasks := tasks[i := Driving(job, queueDb[k])];
      } else {
        tasks := Without(tasks, i);
      }
      if Fine.Inv(s) && UniqueDriver.Solo(s) {
        UniqueDriver.SoloStep(s, Atomic.Begin(i));
        UniqueDriver.InvStep(s, Atomic.Begin(i));
      }
    }

    /** prove() from the end of its prover call to its own. */
    method ProveFinish(i: nat, o: Outcome)
      requires up && CanCommit(View(), i, o)
      modifies this
      ensures View() == Atomic.Done(old(View()), i, o)
      ensures old(Valid()) ==> Valid()
    {
      ghost var s := View();
      var job := tasks[i].job;
      var k := Bincode.EncodeAnchor(job.anchor);
      assert Without(tasks[i := Resending(job)], i) == Without(tasks, i);
      tasks := Without(tasks, i);
      match o {
        case Proved(p) => FinalizeJob(k, ZkProofFinished(p));
        case Submitted(id) =>
          network := network[id := job.input.data];
          SendJobWithNewStatus(k, RemoteZkProofPending(id), job);
        case NetErr(cause) => var _ := HandleZkClientError(cause, k);
        case Abandon =>
      }
      if Fine.Inv(s) && UniqueDriver.Solo(s) {
        UniqueDriver.SoloStep(s, Atomic.Finish(i, o));
        UniqueDriver.InvStep(s, Atomic.Finish(i, o));
      }
    }

    /** The worker's loop, until it has nothing to receive or is told to stop. */
    method JobWorker()
      requires up
      modifies this
      ensures View() == ReceiveAll(old(View()))
      ensures old(Valid()) ==> Valid()
    {
      ghost var s := View();
      while up && channel != []
        invariant !up ==> channel == []
        invariant ReceiveAll(View()) == ReceiveAll(s)
        invariant UniqueDriver.Solo(s) && Fine.Inv(s) ==> Valid()
        decreases up, |channel|
      {
        ghost var before := View();
        match channel[0] {
          case Some(job) =>
            channel := channel[1..];
            tasks := tasks + [Spawned(job)];
          case None =>
            up, channel, tasks := false, [], [];
        }
        assert View() == Received(before);
        if UniqueDriver.Solo(s) && Fine.Inv(s) {
          UniqueDriver.SoloStep(before, Atomic.Receive);
          UniqueDriver.InvStep(before, Atomic.Receive);
        }
      }
    }

    method Shutdown()
      requires up
      modifies this`channel
      ensures View() == Sent(old(View()), None)
      ensures old(Valid()) ==> Valid()
    {
      ghost var s := View();
      channel := channel + [None];
      if Fine.Inv(s) && UniqueDriver.Solo(s) {
        UniqueDriver.SoloStep(s, Atomic.Shutdown);
        UniqueDriver.InvStep(s, Atomic.Shutdown);
      }
    }

    /** A process start: the recovery loop decides whether it comes to serve. */
    method Restart(order: seq<Key>)
      requires !up && Enumerates(order, queueDb)
      modifies this
      ensures View() == Booted(old(View()), order)
      ensures old(Valid()) ==> Valid()
    {
      ghost var s := View();
      var r := Recovery.RestartUnfinished(Entries(order, queueDb));
      match r {
        case Sent(jobs) =>
          up := true;
          channel := seq(|jobs|, i requires 0 <= i < |jobs| => Some(jobs[i]));
        case Panicked =>
      }
      if Fine.Inv(s) && UniqueDriver.Solo(s) {
        UniqueDriver.SoloStep(s, Atomic.Boot(order));
        UniqueDriver.InvStep(s, Atomic.Boot(order));
      }
    }
  }

  /** Receiving until the channel is empty or the process has ended. */
  function ReceiveAll(s: State): State
    decreases |s.channel|
  {
    if s.channel == [] then s else ReceiveAll(Received(s))
  }

  /** One task per job message. */
  function Spawns(channel: seq<Message>): seq<Task> {
    if channel == [] then []
    else (if channel[0].Some? then [Spawned(channel[0].value)] else []) + Spawns(channel[1..])
  }

  /** Without a stop message, every message becomes a task, in order. */
  lemma {:induction false} ReceiveAllSpawns(s: State)
    requires Healing.NoStop(s)
    ensures ReceiveAll(s) == s.(channel := [], tasks := s.tasks + Spawns(s.channel))
    decreases |s.channel|
  {
    if s.channel != [] {
      assert s.channel[0] in s.channel;
      ReceiveAllSpawns(Received(s));
      var t := Spawned(s.channel[0].value);
      assert s.tasks + ([t] + Spawns(s.channel[1..])) == (s.tasks + [t]) + Spawns(s.channel[1..]);
    }
  }

  /** With a stop message anywhere in the channel, the loop ends the process. */
  lemma {:induction false} StopEnds(s: State)
    requires exists m :: m in s.channel && m.None?
    ensures ReceiveAll(s) == Exited(s)
    decreases |s.channel|
  {
    if s.channel[0].Some? {
      StopEnds(Received(s));
    }
  }

  // ----- The worker's loop as a run -----

  /** The messages the loop receives: all of them, or those up to and including the first stop message. */
  function ReceiveCount(channel: seq<Message>): nat {
    if channel == [] then 0 else if channel[0].None? then 1 else 1 + ReceiveCount(channel[1..])
  }

  function Receives(n: nat): seq<Fine.Event> {
    seq(n, _ => Fine.Receive)
  }

  /** The loop is a run of receive steps, undisturbed by tasks and calls. */
  lemma {:induction false} ReceiveAllIsRun(s: State)
    requires s.up
    ensures Fine.Runs(s, Receives(ReceiveCount(s.channel)))
    ensures Fine.After(s, Receives(ReceiveCount(s.channel))) == ReceiveAll(s)
    decreases |s.channel|
  {
    if s.channel != [] {
      var n, s' := ReceiveCount(s.channel), Received(s);
      assert Receives(n) == [Fine.Receive] + Receives(n - 1);
      if s.channel[0].Some? {
        ReceiveAllIsRun(s');
      } else {
        assert Receives(n - 1) == [];
      }
      Fine.Extend(s, Fine.Receive, Receives(n - 1));
    }
  }

  function AtomicReceives(n: nat): seq<Atomic.Event> {
    seq(n, _ => Atomic.Receive)
  }

  /** And so it is of the request-atomic machine. */
  lemma {:induction false} ReceiveAllIsAtomicRun(s: State)
    requires s.up
    ensures Atomic.Runs(s, AtomicReceives(ReceiveCount(s.channel)))
    ensures Atomic.After(s, AtomicReceives(ReceiveCount(s.channel))) == ReceiveAll(s)
    decreases |s.channel|
  {
    if s.channel != [] {
      var n, s' := ReceiveCount(s.channel), Received(s);
      assert AtomicReceives(n)[0] == Atomic.Receive && AtomicReceives(n)[1..] == AtomicReceives(n - 1);
      if s.channel[0].Some? {
        ReceiveAllIsAtomicRun(s');
      } else {
        assert AtomicReceives(n - 1) == [];
      }
    }
  }
}
