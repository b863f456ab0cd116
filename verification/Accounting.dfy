/**
 Two consequences of driving a key at most once at a time, in request-atomic runs:
 what becomes of a key whose driver is lost, and how many proving attempts a key can
 cost.
 */
module Accounting {
  import opened Jobs
  import opened Sums
  import opened Engine
  import opened Atomic
  import opened UniqueDriver
  import Fine
  import Healing

  // ----- Frozen entries -----

  /** The process ends with this step. */
  predicate Exits(s: State, e: Event) {
    e.Crash? || (e.Receive? && s.channel != [] && s.channel[0].None?)
  }

  lemma DriversOfStep(s: State, e: Event, k: Key)
    requires Solo(s) && Fine.Inv(s) && Enabled(s, e) && s.up && k in s.queue
    ensures Exits(s, e) ==> Drivers(Apply(s, e), k) == 0
    ensures !Exits(s, e) && !e.Finish? ==> Drivers(Apply(s, e), k) == Drivers(s, k)
  {
    match e
    case Request(job) => RequestDrivers(s, job, k);
    case Receive =>
      if s.channel[0].Some? {
        Healing.ReceivedDrivers(s, k);
      }
    case Begin(i) =>
      SoloBegin(s, i);
      Healing.TaskReplaced(s, i, Driving(s.tasks[i].job, s.queue[KeyOf(s.tasks[i].job)]), k);
    case Shutdown => SumAppend(s.channel, None, MessageFor(k));
    case Finish(_, _) | Crash | Boot(_) =>
  }

  /**
   A queued key loses its driver without being finalized exactly when its prover call
   is abandoned or the process ends.
   */
  lemma LosesDriverIff(s: State, e: Event, k: Key)
    requires Solo(s) && Fine.Inv(s) && Enabled(s, e) && k in s.queue && Drivers(s, k) == 1
    ensures k in Apply(s, e).queue && Drivers(Apply(s, e), k) == 0
       <==> Exits(s, e) || (e.Finish? && e.outcome.Abandon? && KeyOf(s.tasks[e.task].job) == k)
  {
    if e.Finish? {
      TaskIsDriver(s, e.task);
      DoneDrivers(s, e.task, e.outcome, k);
    } else {
      DriversOfStep(s, e, k);
    }
  }

  lemma DoneStatus(s: State, i: nat, o: Outcome, k: Key)
    requires CanCommit(s, i, o) && KeyOf(s.tasks[i].job) != k
    ensures Lookup(Done(s, i, o).queue, k) == Lookup(s.queue, k)
  {
  }

  lemma RequestStatus(s: State, job: Job, k: Key)
    requires Disjoint(s) && k in s.queue
    ensures Lookup(Requested(s, job).queue, k) == Some(s.queue[k])
  {
  }

  /** Only a task of the key itself changes a queued key's status. */
  lemma StatusKept(s: State, e: Event, k: Key)
    requires Solo(s) && Fine.Inv(s) && Enabled(s, e) && k in s.queue
    requires e.Finish? ==> KeyOf(s.tasks[e.task].job) != k
    ensures Lookup(Apply(s, e).queue, k) == Some(s.queue[k])
  {
    match e
    case Request(job) => RequestStatus(s, job, k);
    case Finish(i, o) => DoneStatus(s, i, o, k);
    case Boot(order) => Fine.BootIff(s, order);
    case Receive | Begin(_) | Shutdown | Crash => assert Apply(s, e).queue == s.queue;
  }

  lemma FrozenStep(s: State, e: Event, k: Key)
    requires Solo(s) && Fine.Inv(s) && Enabled(s, e) && k in s.queue && Drivers(s, k) == 0
    ensures Lookup(Apply(s, e).queue, k) == Some(s.queue[k]) && Drivers(Apply(s, e), k) == 0
  {
    if e.Finish? {
      TaskIsDriver(s, e.task);
      DoneDrivers(s, e.task, e.outcome, k);
    } else if e.Boot? {
      Fine.BootIff(s, e.order);
    } else {
      DriversOfStep(s, e, k);
    }
    StatusKept(s, e, k);
  }

  /**
   Frozen entries: a queued key without a driver keeps its status in every further
   run, across restarts too, and every request for it is answered "pending".
   */
  lemma {:induction false} FrozenForever(s: State, es: seq<Event>, job: Job)
    requires Solo(s) && Fine.Inv(s) && Runs(s, es)
    requires KeyOf(job) in s.queue && Drivers(s, KeyOf(job)) == 0
    ensures var s' := After(s, es); var k := KeyOf(job);
            && Lookup(s'.queue, k) == Some(s.queue[k])
            && Drivers(s', k) == 0
            && AnswerTo(s', job) == NotYet
    decreases |es|
  {
    if es == [] {
      assert InProgress(s.queue[KeyOf(job)]);
    } else {
      FrozenStep(s, es[0], KeyOf(job));
      SoloStep(s, es[0]);
      InvStep(s, es[0]);
      FrozenForever(Apply(s, es[0]), es[1..], job);
    }
  }

  // ----- Work accounting -----

  ghost function SpawnedFor(k: Key): Task -> nat {
    (t: Task) => if t.Spawned? && KeyOf(t.job) == k then 1 else 0
  }

  /** Messages and tasks that will still read the key's queue entry. */
  ghost function Readers(s: State, k: Key): nat {
    Sum(s.channel, MessageFor(k)) + Sum(s.tasks, SpawnedFor(k))
  }

  /** The statuses whose prover call starts a proving attempt, with a nonce of its own. */
  predicate StartsAttempt(st: JobStatus) {
    st.LocalZkProofPending? || st.RemoteZkProofRequesting?
  }

  /** Attempts that will be started for the key without any further request. */
  ghost function Budget(s: State, k: Key): nat {
    if k in s.queue && StartsAttempt(s.queue[k]) then Readers(s, k) else 0
  }

  ghost function AttemptAt(s: State, e: Event, k: Key): nat
    requires Enabled(s, e)
  {
    if e.Begin? && KeyOf(s.tasks[e.task].job) == k && k in s.queue && StartsAttempt(s.queue[k]) then 1 else 0
  }

  ghost function RetryAt(s: State, e: Event, k: Key): nat
    requires Enabled(s, e)
  {
    if e.Request? && KeyOf(e.job) == k && AnswerTo(s, e.job).Retrying? then 1 else 0
  }

  /** Proving attempts a run starts for a key. */
  ghost function Attempts(s: State, es: seq<Event>, k: Key): nat
    requires Runs(s, es)
    decreases |es|
  {
    if es == [] then 0 else AttemptAt(s, es[0], k) + Attempts(Apply(s, es[0]), es[1..], k)
  }

  /** "Retrying!" answers a run gives for a key. */
  ghost function Retries(s: State, es: seq<Event>, k: Key): nat
    requires Runs(s, es)
    decreases |es|
  {
    if es == [] then 0 else RetryAt(s, es[0], k) + Retries(Apply(s, es[0]), es[1..], k)
  }

  function Known(s: State, k: Key): nat {
    if k in s.queue || k in s.finished then 1 else 0
  }

  lemma {:induction false} FewerSpawned(ts: seq<Task>, k: Key)
    ensures Sum(ts, SpawnedFor(k)) <= Sum(ts, TaskFor(k))
  {
    if ts != [] {
      FewerSpawned(ts[1..], k);
    }
  }

  lemma ReadersAreDrivers(s: State, k: Key)
    ensures Readers(s, k) <= Drivers(s, k)
  {
    FewerSpawned(s.tasks, k);
  }

  lemma RequestReaders(s: State, job: Job, k: Key)
    ensures Readers(Requested(s, job), k)
         == Readers(s, k) + (if Starts(s, job).Some? && k == KeyOf(job) then 1 else 0)
  {
    SumAppend(s.channel, Some(job), MessageFor(k));
  }

  /** A request starts work on a key only when the key is new, or when it answers "Retrying!". */
  lemma StartsMeans(s: State, job: Job)
    requires Starts(s, job).Some?
    ensures KeyOf(job) in s.finished ==> AnswerTo(s, job).Retrying?
    ensures KeyOf(job) !in s.finished ==> KeyOf(job) !in s.queue
  {
  }

  lemma RequestCost(s: State, job: Job, k: Key)
    requires Solo(s) && s.up
    ensures Budget(Requested(s, job), k) + Known(s, k)
         <= Budget(s, k) + Known(Requested(s, job), k) + RetryAt(s, Request(job), k)
  {
    ReadersAreDrivers(s, k);
    RequestReaders(s, job, k);
    if Starts(s, job).Some? && k == KeyOf(job) {
      StartsMeans(s, job);
      assert k !in s.queue;
    }
  }

  lemma ReceiveCost(s: State, k: Key)
    requires s.channel != [] && s.channel[0].Some?
    ensures Readers(Received(s), k) == Readers(s, k)
  {
    SumAppend(s.tasks, Spawned(s.channel[0].value), SpawnedFor(k));
  }

  lemma BeginCost(s: State, i: nat, k: Key)
    requires Solo(s) && Fine.Inv(s) && s.up && i < |s.tasks| && s.tasks[i].Spawned?
    ensures AttemptAt(s, Begin(i), k) + Budget(Began(s, i), k) <= Budget(s, k)
    ensures Known(Began(s, i), k) == Known(s, k)
  {
    SoloBegin(s, i);
    SumUpdate(s.tasks, i, Began(s, i).tasks[i], SpawnedFor(k));
  }

  lemma DoneReaders(s: State, i: nat, o: Outcome, k: Key)
    requires CanCommit(s, i, o) && KeyOf(s.tasks[i].job) != k
    ensures Readers(Done(s, i, o), k) == Readers(s, k)
  {
    SumWithout(s.tasks, i, SpawnedFor(k));
    if o.Submitted? {
      var t := Resending(s.tasks[i].job);
      assert Without(s.tasks[i := t], i) == Without(s.tasks, i);
      SumAppend(s.channel, Some(s.tasks[i].job), MessageFor(k));
    }
  }

  lemma DoneCost(s: State, i: nat, o: Outcome, k: Key)
    requires Solo(s) && CanCommit(s, i, o)
    ensures Budget(Done(s, i, o), k) <= Budget(s, k)
    ensures Known(Done(s, i, o), k) == Known(s, k)
  {
    TaskIsDriver(s, i);
    if KeyOf(s.tasks[i].job) != k {
      DoneReaders(s, i, o, k);
    } else if o.Abandon? {
      SumWithout(s.tasks, i, SpawnedFor(k));
    }
  }

  /** Each step's attempts are paid for by the budget, by acceptance, or by a retry. */
  lemma CostStep(s: State, e: Event, k: Key)
    requires Solo(s) && Fine.Inv(s) && Enabled(s, e)
    ensures AttemptAt(s, e, k) + Budget(Apply(s, e), k) + Known(s, k)
         <= Budget(s, k) + Known(Apply(s, e), k) + RetryAt(s, e, k)
  {
    match e
    case Request(job) => RequestCost(s, job, k);
    case Receive =>
      if s.channel[0].Some? {
        ReceiveCost(s, k);
      }
    case Begin(i) => BeginCost(s, i, k);
    case Finish(i, o) => DoneCost(s, i, o, k);
    case Shutdown => SumAppend(s.channel, None, MessageFor(k));
    case Crash =>
    case Boot(order) => Fine.BootIff(s, order);
  }

  lemma {:induction false} Cost(s: State, es: seq<Event>, k: Key)
    requires Solo(s) && Fine.Inv(s) && Runs(s, es)
    ensures Attempts(s, es, k) + Budget(After(s, es), k) + Known(s, k)
         <= Budget(s, k) + Known(After(s, es), k) + Retries(s, es, k)
    decreases |es|
  {
    if es != [] {
      CostStep(s, es[0], k);
      SoloStep(s, es[0]);
      InvStep(s, es[0]);
      Cost(Apply(s, es[0]), es[1..], k);
    }
  }

  /**
   Work accounting: in every run from an empty database, a key costs at most one
   proving attempt once it is accepted, and one for each "Retrying!" answer.
   */
  lemma AttemptsBounded(env: Env, es: seq<Event>, k: Key)
    requires Runs(Initial(env), es)
    ensures Attempts(Initial(env), es, k)
         <= Known(After(Initial(env), es), k) + Retries(Initial(env), es, k)
  {
    InitialWell(env);
    Cost(Initial(env), es, k);
  }
}
