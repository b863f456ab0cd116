/**
 What the fine machine keeps while no prover call is abandoned and the process stays
 up: every queued key is driven, overlaps of the two trees heal, and all work drains.
 */
module Healing {
  import opened Jobs
  import opened Sums
  import opened Engine
  import opened Fine

  // ----- How a step changes the number of drivers -----

  lemma MessageAdded(s: State, m: Message, k: Key)
    ensures Drivers(Sent(s, m), k) == Drivers(s, k) + MessageFor(k)(m)
  {
    SumAppend(s.channel, m, MessageFor(k));
  }

  lemma TaskGone(s: State, i: nat, k: Key)
    requires i < |s.tasks|
    ensures Drivers(s.(tasks := Without(s.tasks, i)), k) + TaskFor(k)(s.tasks[i]) == Drivers(s, k)
  {
    SumWithout(s.tasks, i, TaskFor(k));
  }

  lemma TaskReplaced(s: State, i: nat, t: Task, k: Key)
    requires i < |s.tasks| && t.job == s.tasks[i].job
    ensures Drivers(s.(tasks := s.tasks[i := t]), k) == Drivers(s, k)
  {
    SumUpdate(s.tasks, i, t, TaskFor(k));
  }

  lemma ArrivedDrivers(s: State, job: Job, k: Key)
    ensures Drivers(Arrived(s, job), k) == Drivers(s, k)
  {
    SumAppend(s.calls, ReadFinished(job), SendFor(k));
  }

  lemma ReceivedDrivers(s: State, k: Key)
    requires s.channel != [] && s.channel[0].Some?
    ensures Drivers(Received(s), k) == Drivers(s, k)
  {
    var m := s.channel[0];
    assert s.channel == [m] + s.channel[1..];
    SumConcat([m], s.channel[1..], MessageFor(k));
    SumAppend([], m, MessageFor(k));
    assert [] + [m] == [m];
    SumAppend(s.tasks, Spawned(m.value), TaskFor(k));
  }

  lemma EffectDrivers(s: State, c: Call, k: Key)
    ensures Drivers(Effect(s, c), k) == Drivers(s, k) + SendFor(k)(c)
  {
    if c.SendJob? {
      SumAppend(s.channel, Some(c.job), MessageFor(k));
    }
  }

  lemma CallDrivers(s: State, i: nat, t: Then, k: Key)
    requires i < |s.calls|
    ensures var calls := match t case Goes(c) => s.calls[i := c] case Answers(_) => Without(s.calls, i);
            Drivers(s.(calls := calls), k) + SendFor(k)(s.calls[i])
              == Drivers(s, k) + (if t.Goes? then SendFor(k)(t.call) else 0)
  {
    if t.Goes? {
      SumUpdate(s.calls, i, t.call, SendFor(k));
    } else {
      SumWithout(s.calls, i, SendFor(k));
    }
  }

  /** A call becomes a driver when its next access is the send. */
  lemma AdvancedDrivers(s: State, i: nat, k: Key)
    requires i < |s.calls|
    ensures var t := Next(s, s.calls[i]);
            Drivers(Advanced(s, i), k) == Drivers(s, k) + (if t.Goes? then SendFor(k)(t.call) else 0)
  {
    var c := s.calls[i];
    EffectDrivers(s, c, k);
    CallDrivers(Effect(s, c), i, Next(s, c), k);
  }

  lemma ResentDrivers(s: State, i: nat, k: Key)
    requires i < |s.tasks|
    ensures Drivers(Resent(s, i), k) == Drivers(s, k)
  {
    SumAppend(s.channel, Some(s.tasks[i].job), MessageFor(k));
    SumWithout(s.tasks, i, TaskFor(k));
  }

  lemma CommittedDrivers(s: State, i: nat, o: Outcome, k: Key)
    requires CanCommit(s, i, o)
    ensures Drivers(Committed(s, i, o), k) == Drivers(s, k) - (if o.Submitted? then 0 else TaskFor(k)(s.tasks[i]))
  {
    if o.Submitted? {
      TaskReplaced(s, i, Resending(s.tasks[i].job), k);
    } else {
      TaskGone(s, i, k);
    }
  }

  lemma BeganDrivers(s: State, i: nat, k: Key)
    requires i < |s.tasks|
    ensures KeyOf(s.tasks[i].job) in s.queue && InProgress(s.queue[KeyOf(s.tasks[i].job)])
            ==> Drivers(Began(s, i), k) == Drivers(s, k)
    ensures KeyOf(s.tasks[i].job) != k ==> Drivers(Began(s, i), k) == Drivers(s, k)
    ensures KeyOf(s.tasks[i].job) == k && k !in s.queue ==> Drivers(Began(s, i), k) + 1 == Drivers(s, k)
  {
    var job := s.tasks[i].job;
    TaskGone(s, i, k);
    if KeyOf(job) in s.queue {
      TaskReplaced(s, i, Driving(job, s.queue[KeyOf(job)]), k);
    }
  }

  // ----- Healing -----

  /** A prover call ends in an error that is no network error, or in a panic. */
  predicate Abandons(e: Event) {
    e.Commit? && e.outcome.Abandon?
  }

  /** Steps of a process that is not told to stop and whose prover calls end in a proof or a network error. */
  predicate Healthy(e: Event) {
    match e
    case Commit(_, o) => !o.Abandon?
    case Shutdown | Crash | Boot(_) => false
    case _ => true
  }

  predicate NoStop(s: State) {
    forall m :: m in s.channel ==> m.Some?
  }

  ghost predicate Healed(s: State) {
    forall k :: k in s.queue ==> Drivers(s, k) > 0
  }

  lemma AdvanceKeepsDriven(s: State, i: nat, k: Key)
    requires i < |s.calls| && k in Advanced(s, i).queue && (k in s.queue ==> Drivers(s, k) > 0)
    ensures Drivers(Advanced(s, i), k) > 0
  {
    AdvancedDrivers(s, i, k);
    assert k in s.queue || KeyOf(s.calls[i].job) == k;
  }

  lemma CommitKeepsDriven(s: State, i: nat, o: Outcome, k: Key)
    requires CanCommit(s, i, o) && !o.Abandon?
    requires k in Committed(s, i, o).queue && (k in s.queue ==> Drivers(s, k) > 0)
    ensures Drivers(Committed(s, i, o), k) > 0
  {
    CommittedDrivers(s, i, o, k);
    SumMember(s.tasks, i, TaskFor(k));
    assert k in s.queue || KeyOf(s.tasks[i].job) == k;
    assert !o.Submitted? ==> KeyOf(s.tasks[i].job) != k;
  }

  lemma DriversStep(s: State, e: Event, k: Key)
    requires Inv(s) && Enabled(s, e) && !Abandons(e) && Apply(s, e).up
    requires k in Apply(s, e).queue && (s.up && k in s.queue ==> Drivers(s, k) > 0)
    ensures Drivers(Apply(s, e), k) > 0
  {
    match e
    case Arrive(job) => ArrivedDrivers(s, job, k);
    case Advance(i) => AdvanceKeepsDriven(s, i, k);
    case Receive => ReceivedDrivers(s, k);
    case Begin(i) => BeganDrivers(s, i, k);
    case Commit(i, o) => CommitKeepsDriven(s, i, o, k);
    case Resend(i) => ResentDrivers(s, i, k);
    case Shutdown => MessageAdded(s, None, k);
    case Crash =>
    case Boot(order) => BootIff(s, order);
  }

  /** One step without abandoned prover call: every queued key of a serving process still has a driver. */
  lemma HealedStep(s: State, e: Event)
    requires Inv(s) && (s.up ==> Healed(s)) && Enabled(s, e) && !Abandons(e)
    ensures Apply(s, e).up ==> Healed(Apply(s, e))
  {
    if Apply(s, e).up {
      forall k | k in Apply(s, e).queue ensures Drivers(Apply(s, e), k) > 0 {
        DriversStep(s, e, k);
      }
    }
  }

  /**
   Healing, in every run without abandoned prover call, stops, crashes and restarts
   included: whatever is queued in a serving process is driven, a key in both trees too.
   */
  lemma {:induction false} DrivenAlways(s: State, es: seq<Event>)
    requires Inv(s) && (s.up ==> Healed(s)) && Runs(s, es)
    requires forall e :: e in es ==> !Abandons(e)
    ensures var s' := After(s, es); Inv(s') && (s'.up ==> Healed(s'))
    decreases |es|
  {
    if es != [] {
      InvStep(s, es[0]);
      HealedStep(s, es[0]);
      DrivenAlways(Apply(s, es[0]), es[1..]);
    }
  }

  lemma NoStopStep(s: State, e: Event)
    requires NoStop(s) && Enabled(s, e) && Healthy(e)
    ensures NoStop(Apply(s, e)) && Apply(s, e).up
  {
    if e.Receive? {
      assert s.channel[0] in s.channel;
    }
  }

  lemma {:induction false} NoStopAlways(s: State, es: seq<Event>)
    requires s.up && NoStop(s) && Runs(s, es)
    requires forall e :: e in es ==> Healthy(e)
    ensures After(s, es).up && NoStop(After(s, es))
    decreases |es|
  {
    if es != [] {
      NoStopStep(s, es[0]);
      NoStopAlways(Apply(s, es[0]), es[1..]);
    }
  }

  /** Without stop and crash the process goes on serving, so every queued key stays driven. */
  lemma HealedAlways(s: State, es: seq<Event>)
    requires Inv(s) && s.up && NoStop(s) && Healed(s) && Runs(s, es)
    requires forall e :: e in es ==> Healthy(e)
    ensures var s' := After(s, es); Inv(s') && s'.up && NoStop(s') && Healed(s')
  {
    NoStopAlways(s, es);
    DrivenAlways(s, es);
  }

  // ----- Overlap of the trees -----

  ghost predicate Overlap(s: State, k: Key) {
    k in s.queue && k in s.finished
  }

  /** One step brings a key into both trees exactly when it is the plain insert of a call that read too early. */
  lemma OverlapIff(s: State, e: Event, k: Key)
    requires Enabled(s, e) && !Overlap(s, k)
    ensures Overlap(Apply(s, e), k) <==>
            k in s.finished && e.Advance? && s.calls[e.call].InsertQueue? && KeyOf(s.calls[e.call].job) == k
  {
  }

  /** The step performs a transaction of the two trees on the key: a task's or a retrying call's. */
  predicate Transacts(s: State, e: Event, k: Key) {
    || (e.Commit? && !e.outcome.Abandon? && e.task < |s.tasks| && KeyOf(s.tasks[e.task].job) == k)
    || (e.Advance? && e.call < |s.calls| && s.calls[e.call].MoveForRetry? && KeyOf(s.calls[e.call].job) == k)
  }

  /** Every transaction leaves its key in exactly one tree, and nothing else removes an overlap. */
  lemma TransactionHeals(s: State, e: Event, k: Key)
    requires Enabled(s, e)
    ensures Transacts(s, e, k) ==> !Overlap(Apply(s, e), k) && k in Accepted(Apply(s, e))
    ensures Overlap(s, k) ==> (Overlap(Apply(s, e), k) <==> !Transacts(s, e, k))
  {
  }
}
