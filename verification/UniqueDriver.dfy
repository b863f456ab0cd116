/**
 What request-atomic steps keep: the trees are disjoint and a key has at most one
 driver, none unless it is queued. While no prover call is abandoned and the process
 stays up, a queued key has exactly one.
 */
module UniqueDriver {
  import opened Jobs
  import opened Sums
  import opened Engine
  import opened Atomic
  import Fine
  import Healing

  predicate TaskAgrees(s: State, t: Task) {
    && !t.Resending?
    && (t.Driving? ==> Lookup(s.queue, KeyOf(t.job)) == Some(t.status))
  }

  ghost predicate Disjoint(s: State) {
    forall k :: !(k in s.queue && k in s.finished)
  }

  ghost predicate AtMostOne(s: State) {
    forall k :: Drivers(s, k) <= if k in s.queue then 1 else 0
  }

  ghost predicate Solo(s: State) {
    && s.calls == []
    && Disjoint(s)
    && AtMostOne(s)
    && (forall t :: t in s.tasks ==> TaskAgrees(s, t))
  }

  /** The task's key is queued, and nothing else drives it. */
  lemma TaskIsDriver(s: State, i: nat)
    requires Solo(s) && i < |s.tasks|
    ensures KeyOf(s.tasks[i].job) in s.queue
    ensures Drivers(s, KeyOf(s.tasks[i].job)) == 1
    ensures forall t :: t in Without(s.tasks, i) ==> KeyOf(t.job) != KeyOf(s.tasks[i].job)
  {
    var k := KeyOf(s.tasks[i].job);
    var others := Without(s.tasks, i);
    SumWithout(s.tasks, i, TaskFor(k));
    assert Drivers(s, k) >= 1;
    forall t | t in others ensures KeyOf(t.job) != k {
      var j :| 0 <= j < |others| && others[j] == t;
      SumMember(others, j, TaskFor(k));
    }
  }

  /** Whatever is on its way to prove() will find its queue entry there. */
  lemma ProveFindsEntry(s: State)
    requires Solo(s)
    ensures forall m :: m in s.channel && m.Some? ==> KeyOf(m.value) in s.queue
    ensures forall t :: t in s.tasks ==> KeyOf(t.job) in s.queue
  {
    forall m | m in s.channel && m.Some? ensures KeyOf(m.value) in s.queue {
      var j :| 0 <= j < |s.channel| && s.channel[j] == m;
      SumMember(s.channel, j, MessageFor(KeyOf(m.value)));
      assert Drivers(s, KeyOf(m.value)) > 0;
    }
    forall t | t in s.tasks ensures KeyOf(t.job) in s.queue {
      var j :| 0 <= j < |s.tasks| && s.tasks[j] == t;
      TaskIsDriver(s, j);
    }
  }

  lemma NoDriverNoTask(s: State, k: Key)
    requires Solo(s) && k !in s.queue
    ensures forall t :: t in s.tasks ==> KeyOf(t.job) != k
  {
    forall t | t in s.tasks ensures KeyOf(t.job) != k {
      var j :| 0 <= j < |s.tasks| && s.tasks[j] == t;
      SumMember(s.tasks, j, TaskFor(k));
    }
  }

  // ----- Steps -----

  lemma RequestDrivers(s: State, job: Job, k: Key)
    ensures Drivers(Requested(s, job), k)
         == Drivers(s, k) + (if Starts(s, job).Some? && k == KeyOf(job) then 1 else 0)
  {
    SumAppend(s.channel, Some(job), MessageFor(k));
  }

  lemma DoneDrivers(s: State, i: nat, o: Outcome, k: Key)
    requires CanCommit(s, i, o)
    ensures Drivers(Done(s, i, o), k) == Drivers(s, k) - (if o.Submitted? then 0 else TaskFor(k)(s.tasks[i]))
  {
    Healing.CommittedDrivers(s, i, o, k);
    if o.Submitted? {
      Healing.ResentDrivers(Committed(s, i, o), i, k);
    }
  }

  /** A request that starts work does so on a key without driver, so no task disagrees. */
  lemma RequestTasks(s: State, job: Job)
    requires Solo(s)
    ensures forall t :: t in s.tasks ==> TaskAgrees(Requested(s, job), t)
    ensures Disjoint(Requested(s, job))
  {
    if Starts(s, job).Some? {
      assert KeyOf(job) !in s.queue;
      NoDriverNoTask(s, KeyOf(job));
    }
    forall t | t in s.tasks ensures TaskAgrees(Requested(s, job), t) {
      assert TaskAgrees(s, t);
    }
  }

  lemma SoloRequest(s: State, job: Job)
    requires Solo(s)
    ensures Solo(Requested(s, job))
  {
    var s' := Requested(s, job);
    RequestTasks(s, job);
    forall k ensures Drivers(s', k) <= if k in s'.queue then 1 else 0 {
      RequestDrivers(s, job, k);
      assert Drivers(s, k) <= if k in s.queue then 1 else 0;
    }
  }

  lemma SoloReceive(s: State)
    requires Solo(s) && s.channel != []
    ensures Solo(Received(s))
  {
    if s.channel[0].Some? {
      forall k ensures Drivers(Received(s), k) <= if k in s.queue then 1 else 0 {
        Healing.ReceivedDrivers(s, k);
      }
    }
  }

  lemma SoloBegin(s: State, i: nat)
    requires Solo(s) && Fine.Typed(s) && i < |s.tasks| && s.tasks[i].Spawned?
    ensures KeyOf(s.tasks[i].job) in s.queue && Solo(Began(s, i))
    ensures Began(s, i).tasks == s.tasks[i := Driving(s.tasks[i].job, s.queue[KeyOf(s.tasks[i].job)])]
  {
    TaskIsDriver(s, i);
    var s' := Began(s, i);
    assert InProgress(s.queue[KeyOf(s.tasks[i].job)]);
    forall t | t in s'.tasks ensures TaskAgrees(s', t) {
      assert t == s'.tasks[i] || (t in s.tasks && TaskAgrees(s, t));
    }
    forall k ensures Drivers(s', k) <= if k in s.queue then 1 else 0 {
      Healing.BeganDrivers(s, i, k);
      assert Drivers(s, k) <= if k in s.queue then 1 else 0;
    }
  }

  /** Removing a task leaves tasks of other keys only; moving its key disturbs none of them. */
  lemma DoneTasks(s: State, i: nat, o: Outcome)
    requires Solo(s) && CanCommit(s, i, o)
    ensures forall t :: t in Done(s, i, o).tasks ==> TaskAgrees(Done(s, i, o), t)
  {
    TaskIsDriver(s, i);
    var s' := Done(s, i, o);
    assert s'.tasks == Without(s.tasks, i) by {
      if o.Submitted? {
        var t := Resending(s.tasks[i].job);
        assert Without(s.tasks[i := t], i) == Without(s.tasks, i);
      }
    }
    forall t | t in s'.tasks ensures TaskAgrees(s', t) {
      assert t in s.tasks && TaskAgrees(s, t);
    }
  }

  lemma SoloDone(s: State, i: nat, o: Outcome)
    requires Solo(s) && CanCommit(s, i, o)
    ensures Solo(Done(s, i, o))
  {
    var s' := Done(s, i, o);
    TaskIsDriver(s, i);
    DoneTasks(s, i, o);
    forall k ensures Drivers(s', k) <= if k in s'.queue then 1 else 0 {
      DoneDrivers(s, i, o, k);
    }
  }

  lemma SoloStep(s: State, e: Event)
    requires Solo(s) && Fine.Inv(s) && Enabled(s, e)
    ensures Solo(Apply(s, e))
  {
    match e
    case Request(job) => SoloRequest(s, job);
    case Receive => SoloReceive(s);
    case Begin(i) => SoloBegin(s, i);
    case Finish(i, o) => SoloDone(s, i, o);
    case Shutdown =>
      forall k ensures Drivers(Apply(s, e), k) == Drivers(s, k) {
        SumAppend(s.channel, None, MessageFor(k));
      }
    case Crash =>
    case Boot(order) => Fine.BootIff(s, order);
  }

  lemma InvStep(s: State, e: Event)
    requires s.calls == [] && Fine.Inv(s) && Enabled(s, e)
    ensures Fine.Inv(Apply(s, e))
  {
    StepIsFineRun(s, e);
    Fine.InvAlways(s, Split(s, e));
  }

  /** In every request-atomic run, crashes and abandoned calls included. */
  lemma {:induction false} SoloAlways(s: State, es: seq<Event>)
    requires Solo(s) && Fine.Inv(s) && Runs(s, es)
    ensures Solo(After(s, es)) && Fine.Inv(After(s, es))
    decreases |es|
  {
    if es != [] {
      SoloStep(s, es[0]);
      InvStep(s, es[0]);
      SoloAlways(Apply(s, es[0]), es[1..]);
    }
  }

  // ----- Exactly one driver -----

  predicate Healthy(e: Event) {
    match e
    case Finish(_, o) => !o.Abandon?
    case Shutdown | Crash | Boot(_) => false
    case _ => true
  }

  ghost predicate ExactlyOne(s: State) {
    forall k :: Drivers(s, k) == if k in s.queue then 1 else 0
  }

  lemma {:induction false} FlatHealthy(s: State, es: seq<Event>)
    requires Runs(s, es) && forall e :: e in es ==> Healthy(e)
    ensures forall f :: f in Flatten(s, es) ==> Healing.Healthy(f)
    decreases |es|
  {
    if es != [] {
      FlatHealthy(Apply(s, es[0]), es[1..]);
      assert Healthy(es[0]);
      forall f | f in Split(s, es[0]) ensures Healing.Healthy(f) {
        assert f == Split(s, es[0])[0] || f.Advance? || f.Resend?;
      }
    }
  }

  /** The state of a healthy engine: all that is kept, and every queued key driven. */
  ghost predicate Well(s: State) {
    s.up && Solo(s) && Fine.Inv(s) && Healing.NoStop(s) && Healing.Healed(s)
  }

  lemma WellExact(s: State)
    requires Well(s)
    ensures ExactlyOne(s)
  {
    forall k ensures Drivers(s, k) == if k in s.queue then 1 else 0 {
      assert Drivers(s, k) <= if k in s.queue then 1 else 0;
    }
  }

  /** Unique driver, in every healthy request-atomic run. */
  lemma WellAlways(s: State, es: seq<Event>)
    requires Well(s) && Runs(s, es) && forall e :: e in es ==> Healthy(e)
    ensures Well(After(s, es)) && ExactlyOne(After(s, es))
  {
    SoloAlways(s, es);
    RunIsFineRun(s, es);
    FlatHealthy(s, es);
    Healing.HealedAlways(s, Flatten(s, es));
    WellExact(After(s, es));
  }

  lemma InitialWell(env: Env)
    ensures Well(Initial(env))
  {
  }
}
