/**
 Termination of the work at hand, in the fine machine: a rank over the positions of
 all calls, messages and tasks falls with every step that is not a new request, a
 stop or an abandoned prover call, although tasks re-send their jobs.
 */
module Drain {
  import opened Jobs
  import opened Sums
  import opened Engine
  import opened Fine
  import opened Healing

  /** The steps the engine takes by itself, prover calls ending in a proof or a network error. */
  predicate Internal(e: Event) {
    Healthy(e) && !e.Arrive?
  }

  /** A key still to be requested sends its driver round once more. */
  function Bump(q: Tree, k: Key): nat {
    if k in q && q[k].RemoteZkProofRequesting? then 4 else 0
  }

  ghost function MessageRank(q: Tree): Message -> nat {
    (m: Message) => if m.Some? then 3 + Bump(q, KeyOf(m.value)) else 0
  }

  ghost function TaskRank(q: Tree): Task -> nat {
    (t: Task) =>
      match t
      case Spawned(job) => 2 + Bump(q, KeyOf(job))
      case Driving(_, st) => if st.RemoteZkProofRequesting? then 5 else 1
      case Resending(job) => 4 + Bump(q, KeyOf(job))
  }

  ghost function CallRank(): Call -> nat {
    (c: Call) =>
      match c
      case ReadFinished(_) => 4
      case ReadQueue(_) => 3
      case InsertQueue(_, _) | MoveForRetry(_, _, _) => 2
      case SendJob(_, _) => 1
  }

  ghost function DriverRank(s: State): nat {
    Sum(s.channel, MessageRank(s.queue)) + Sum(s.tasks, TaskRank(s.queue))
  }

  ghost function CallsRank(s: State): nat {
    Sum(s.calls, CallRank())
  }

  function Size(s: State): nat {
    |s.channel| + |s.tasks| + |s.calls|
  }

  /** A call's step may raise the rank of every driver by a bump, and may add a driver. */
  ghost function Potential(s: State): nat {
    DriverRank(s) + CallsRank(s) * (4 * Size(s) + 9)
  }

  /** The drivers of one state ranked by the queue of another. */
  lemma QueueChanged(s: State, s': State, c: nat)
    requires s'.channel == s.channel && s'.tasks == s.tasks
    requires forall k :: Bump(s'.queue, k) <= Bump(s.queue, k) + c
    ensures DriverRank(s') <= DriverRank(s) + c * (|s.channel| + |s.tasks|)
  {
    SumBounded(s.channel, MessageRank(s.queue), MessageRank(s'.queue), c);
    SumBounded(s.tasks, TaskRank(s.queue), TaskRank(s'.queue), c);
    assert c * (|s.channel| + |s.tasks|) == c * |s.channel| + c * |s.tasks|;
  }

  lemma ReceiveFalls(s: State)
    requires s.channel != [] && s.channel[0].Some?
    ensures DriverRank(Received(s)) < DriverRank(s)
  {
    var m := s.channel[0];
    SumAppend(s.tasks, Spawned(m.value), TaskRank(s.queue));
    assert Sum(s.channel, MessageRank(s.queue))
        == MessageRank(s.queue)(m) + Sum(s.channel[1..], MessageRank(s.queue));
  }

  lemma BeginFalls(s: State, i: nat)
    requires i < |s.tasks| && s.tasks[i].Spawned?
    ensures DriverRank(Began(s, i)) < DriverRank(s)
  {
    SumWithout(s.tasks, i, TaskRank(s.queue));
    var s' := Began(s, i);
    if |s'.tasks| == |s.tasks| {
      SumUpdate(s.tasks, i, s'.tasks[i], TaskRank(s.queue));
    }
  }

  lemma ResendFalls(s: State, i: nat)
    requires i < |s.tasks| && s.tasks[i].Resending?
    ensures DriverRank(Resent(s, i)) < DriverRank(s)
  {
    SumWithout(s.tasks, i, TaskRank(s.queue));
    SumAppend(s.channel, Some(s.tasks[i].job), MessageRank(s.queue));
  }

  lemma CommitFalls(s: State, i: nat, o: Outcome)
    requires CanCommit(s, i, o)
    ensures DriverRank(Committed(s, i, o)) < DriverRank(s)
  {
    var s' := Committed(s, i, o);
    var moved := s.(queue := s'.queue);
    QueueChanged(s, moved, 0);
    SumWithout(s.tasks, i, TaskRank(s'.queue));
    SumWithout(s.tasks, i, TaskRank(s.queue));
    if o.Submitted? {
      SumUpdate(s.tasks, i, s'.tasks[i], TaskRank(s'.queue));
    }
  }

  lemma CallFalls(s: State, i: nat)
    requires i < |s.calls|
    ensures CallsRank(Advanced(s, i)) < CallsRank(s)
  {
    var c := s.calls[i];
    SumWithout(s.calls, i, CallRank());
    if Next(s, c).Goes? {
      SumUpdate(s.calls, i, Next(s, c).call, CallRank());
    }
  }

  lemma EffectRises(s: State, c: Call)
    ensures DriverRank(Effect(s, c)) <= DriverRank(s) + 4 * Size(s) + 7
  {
    if c.SendJob? {
      SumAppend(s.channel, Some(c.job), MessageRank(s.queue));
    } else {
      QueueChanged(s, Effect(s, c), 4);
    }
  }

  lemma AdvanceFalls(s: State, i: nat)
    requires i < |s.calls|
    ensures CallsRank(Advanced(s, i)) < CallsRank(s)
    ensures DriverRank(Advanced(s, i)) <= DriverRank(s) + 4 * Size(s) + 7
  {
    CallFalls(s, i);
    EffectRises(s, s.calls[i]);
  }

  lemma SizeStep(s: State, e: Event)
    requires Enabled(s, e) && Internal(e)
    ensures Size(Apply(s, e)) <= Size(s)
  {
  }

  /** The step is not the receipt of a stop message. */
  predicate Goes(s: State, e: Event) {
    e.Receive? ==> s.channel != [] && s.channel[0].Some?
  }

  lemma CallsUntouched(s: State, e: Event)
    requires Goes(s, e) && Enabled(s, e) && Internal(e) && !e.Advance?
    ensures CallsRank(Apply(s, e)) == CallsRank(s)
  {
  }

  lemma DriversFall(s: State, e: Event)
    requires Goes(s, e) && Enabled(s, e) && Internal(e) && !e.Advance?
    ensures DriverRank(Apply(s, e)) < DriverRank(s)
  {
    match e
    case Receive => ReceiveFalls(s);
    case Begin(i) => BeginFalls(s, i);
    case Commit(i, o) => CommitFalls(s, i, o);
    case Resend(i) => ResendFalls(s, i);
    case Arrive(_) | Advance(_) | Shutdown | Crash | Boot(_) =>
  }

  /** Weights: a call's step pays for everything it may cause. */
  lemma Weighted(d: nat, c: nat, w: nat, d': nat, c': nat, w': nat)
    requires w' <= w
    requires (c' == c && d' < d) || (c' < c && d' <= d + w - 2)
    ensures d' + c' * w' < d + c * w
  {
    assert c' * w' <= c' * w;
    if c' < c {
      assert c' * w + w == (c' + 1) * w <= c * w;
    }
  }

  lemma PotentialFalls(s: State, e: Event)
    requires Goes(s, e) && Enabled(s, e) && Internal(e)
    ensures Potential(Apply(s, e)) < Potential(s)
  {
    var s' := Apply(s, e);
    SizeStep(s, e);
    if e.Advance? {
      AdvanceFalls(s, e.call);
    } else {
      CallsUntouched(s, e);
      DriversFall(s, e);
    }
    Weighted(DriverRank(s), CallsRank(s), 4 * Size(s) + 9, DriverRank(s'), CallsRank(s'), 4 * Size(s') + 9);
  }

  /** Every run of internal steps is finite: its length is bounded by where it starts. */
  lemma {:induction false} DrainIsFinite(s: State, es: seq<Event>)
    requires s.up && NoStop(s) && Runs(s, es)
    requires forall e :: e in es ==> Internal(e)
    ensures |es| + Potential(After(s, es)) <= Potential(s)
    decreases |es|
  {
    if es != [] {
      assert s.channel != [] ==> s.channel[0] in s.channel;
      PotentialFalls(s, es[0]);
      NoStopStep(s, es[0]);
      DrainIsFinite(Apply(s, es[0]), es[1..]);
    }
  }

  ghost predicate Stuck(s: State) {
    forall e :: Internal(e) ==> !Enabled(s, e)
  }

  predicate Idle(s: State) {
    s.channel == [] && s.tasks == [] && s.calls == []
  }

  /** The engine only stops by itself when there is nothing left to do. */
  lemma StuckIffIdle(s: State)
    requires s.up
    ensures Stuck(s) <==> Idle(s)
  {
    if s.calls != [] {
      assert Enabled(s, Advance(0)) && Internal(Advance(0));
    } else if s.channel != [] {
      assert Enabled(s, Receive) && Internal(Receive);
    } else if s.tasks != [] {
      var e := match s.tasks[0]
        case Spawned(_) => Begin(0)
        case Driving(_, _) => Commit(0, NetErr(Other))
        case Resending(_) => Resend(0);
      assert Enabled(s, e) && Internal(e);
    }
  }

  lemma IdleHealed(s: State)
    requires Idle(s) && Healed(s)
    ensures s.queue == map[]
  {
    forall k ensures k !in s.queue {
      assert Drivers(s, k) == 0;
    }
  }

  /**
   Drain: from any state of a serving process in which every queued key is driven, every
   run of internal steps is finite, and one that cannot go on has answered every call,
   emptied channel and queue, left every accepted key in the finished tree, and so
   removed every overlap of the trees.
   */
  lemma Drains(s: State, es: seq<Event>)
    requires Inv(s) && s.up && NoStop(s) && Healed(s)
    requires Runs(s, es) && (forall e :: e in es ==> Internal(e))
    ensures var s' := After(s, es);
            && |es| <= Potential(s)
            && (Stuck(s') ==>
                  && Idle(s')
                  && s'.queue == map[]
                  && Accepted(s) <= s'.finished.Keys
                  && forall k :: !Overlap(s', k))
  {
    var s' := After(s, es);
    DrainIsFinite(s, es);
    HealedAlways(s, es);
    Conservation(s, es);
    StuckIffIdle(s');
    if Idle(s') {
      IdleHealed(s');
    }
  }

  /**
   Such are the states of all runs from an empty database in which no prover call was
   abandoned, whatever crashes and restarts they went through, as long as the process
   serves and has not been told to stop.
   */
  lemma DrainsFromStart(env: Env, es: seq<Event>, fs: seq<Event>)
    requires Runs(Initial(env), es) && (forall e :: e in es ==> !Abandons(e))
    requires After(Initial(env), es).up && NoStop(After(Initial(env), es))
    requires Runs(After(Initial(env), es), fs) && (forall e :: e in fs ==> Internal(e))
    ensures var s := After(Initial(env), es);
            var s' := After(s, fs);
            && |fs| <= Potential(s)
            && (Stuck(s') ==>
                  && Idle(s')
                  && s'.queue == map[]
                  && Accepted(s) <= s'.finished.Keys
                  && forall k :: !Overlap(s', k))
  {
    DrivenAlways(Initial(env), es);
    Drains(After(Initial(env), es), fs);
  }
}
