/**
 What runs of the fine machine cost a key: proving attempts on one side, acceptance and
 "Retrying!" answers on the other. The request-atomic machine bounds the first by the
 second. With several threads exactly the late starts of a key break the bound: inserts
 of a key already accepted or worked on, and retries that set back an entry which
 something is still going to read.
 */
module FineAccounting {
  import opened Jobs
  import opened Sums
  import opened Engine
  import opened Fine
  import Accounting
  import Drain
  import Exposure
  import Healing

  /** A cost of steps. */
  type StepCost = (State, Event) -> nat

  /** A call is made. */
  function NewCall(): StepCost {
    (s: State, e: Event) => if e.Arrive? then 1 else 0
  }

  /** A task starts a proving attempt for the key. */
  function Attempt(k: Key): StepCost {
    (s: State, e: Event) =>
      if && e.Begin? && e.task < |s.tasks| && KeyOf(s.tasks[e.task].job) == k
         && k in s.queue && Accounting.StartsAttempt(s.queue[k]) then 1 else 0
  }

  /** A call for the key is answered "Retrying!". */
  function RetryAnswer(k: Key): StepCost {
    (s: State, e: Event) =>
      if && e.Advance? && e.call < |s.calls| && KeyOf(s.calls[e.call].job) == k
         && Next(s, s.calls[e.call]).Answers? && Next(s, s.calls[e.call]).answer.Retrying? then 1 else 0
  }

  ghost function Total(s: State, es: seq<Event>, f: StepCost): nat
    requires Runs(s, es)
    decreases |es|
  {
    if es == [] then 0 else f(s, es[0]) + Total(Apply(s, es[0]), es[1..], f)
  }

  lemma TotalExtend(s: State, e: Event, es: seq<Event>, f: StepCost)
    requires Enabled(s, e) && Runs(Apply(s, e), es)
    ensures Runs(s, [e] + es) && After(s, [e] + es) == After(Apply(s, e), es)
    ensures Total(s, [e] + es, f) == f(s, e) + Total(Apply(s, e), es, f)
  {
    Extend(s, e, es);
    assert ([e] + es)[1..] == es;
  }

  lemma {:induction false} TotalConcat(s: State, es: seq<Event>, fs: seq<Event>, f: StepCost)
    requires Runs(s, es) && Runs(After(s, es), fs) && Runs(s, es + fs)
    ensures Total(s, es + fs, f) == Total(s, es, f) + Total(After(s, es), fs, f)
    decreases |es|
  {
    if es == [] {
      assert es + fs == fs;
    } else {
      var s' := Apply(s, es[0]);
      assert (es + fs)[0] == es[0] && (es + fs)[1..] == es[1..] + fs;
      TotalConcat(s', es[1..], fs, f);
      assert Total(s, es + fs, f) == f(s, es[0]) + Total(s', es[1..] + fs, f);
    }
  }

  // ----- Attempts still to come -----

  ghost function ResendingFor(k: Key): Task -> nat {
    (t: Task) => if t.Resending? && KeyOf(t.job) == k then 1 else 0
  }

  ghost function NewFor(k: Key): Call -> nat {
    (c: Call) => if c.SendJob? && c.answer == NotYet && KeyOf(c.job) == k then 1 else 0
  }

  /** The key's messages the worker will receive: those ahead of the first stop message. */
  function Ahead(channel: seq<Message>, k: Key): nat
    decreases |channel|
  {
    if channel == [] || channel[0].None? then 0
    else (if KeyOf(channel[0].value) == k then 1 else 0) + Ahead(channel[1..], k)
  }

  /** Tasks and calls that have yet to send the key's job, calls that answer "Retrying!" apart. */
  ghost function Unsent(s: State, k: Key): nat {
    Sum(s.tasks, ResendingFor(k)) + Sum(s.calls, NewFor(k))
  }

  /**
   Everything that will read the key's queue entry without any further answer. What is
   sent behind a stop message is never received.
   */
  ghost function Work(s: State, k: Key): nat {
    Ahead(s.channel, k) + Sum(s.tasks, Accounting.SpawnedFor(k)) + (if Healing.NoStop(s) then Unsent(s, k) else 0)
  }

  /** Whoever reads the key's entry now starts a proving attempt. */
  predicate Startable(s: State, k: Key) {
    k in s.queue && Accounting.StartsAttempt(s.queue[k])
  }

  /** Attempts that will be started without any further start or answer. */
  ghost function ToCome(s: State, k: Key): nat {
    if Startable(s, k) then Work(s, k) else 0
  }

  // ----- How a step changes the work -----

  lemma {:induction false} AheadAppend(channel: seq<Message>, m: Message, k: Key)
    ensures Ahead(channel + [m], k)
         == Ahead(channel, k)
            + (if (forall n :: n in channel ==> n.Some?) && m.Some? && KeyOf(m.value) == k then 1 else 0)
    decreases |channel|
  {
    var channel' := channel + [m];
    if channel == [] {
      assert channel' == [m] && channel'[1..] == [];
    } else {
      assert channel'[0] == channel[0] && channel'[1..] == channel[1..] + [m];
      AheadAppend(channel[1..], m, k);
      assert forall n :: n in channel <==> n == channel[0] || n in channel[1..];
      assert (forall n :: n in channel ==> n.Some?)
        <==> channel[0].Some? && forall n :: n in channel[1..] ==> n.Some?;
    }
  }

  /** A call that sends turns into the message it sends; one that inserts is about to send. */
  lemma CallWork(s: State, i: nat, k: Key)
    requires i < |s.calls|
    ensures var c, t := s.calls[i], Next(s, s.calls[i]);
            && (Healing.NoStop(Advanced(s, i)) <==> Healing.NoStop(s))
            && (!Healing.NoStop(s) ==> Work(Advanced(s, i), k) == Work(s, k))
            && (Healing.NoStop(s) ==>
                  Work(Advanced(s, i), k) + NewFor(k)(c)
                    == Work(s, k) + (if c.SendJob? && KeyOf(c.job) == k then 1 else 0)
                                  + (if t.Goes? then NewFor(k)(t.call) else 0))
  {
    var c := s.calls[i];
    if Next(s, c).Goes? {
      SumUpdate(s.calls, i, Next(s, c).call, NewFor(k));
    } else {
      SumWithout(s.calls, i, NewFor(k));
    }
    if c.SendJob? {
      AheadAppend(s.channel, Some(c.job), k);
    }
  }

  lemma ReceiveWork(s: State, k: Key)
    requires s.channel != [] && s.channel[0].Some?
    ensures Work(Received(s), k) == Work(s, k)
  {
    SumAppend(s.tasks, Spawned(s.channel[0].value), Accounting.SpawnedFor(k));
    SumAppend(s.tasks, Spawned(s.channel[0].value), ResendingFor(k));
    assert Healing.NoStop(Received(s)) <==> Healing.NoStop(s);
  }

  lemma BeginTasks(s: State, i: nat, k: Key)
    requires i < |s.tasks| && s.tasks[i].Spawned?
    ensures var ts := Began(s, i).tasks;
            && Sum(ts, Accounting.SpawnedFor(k)) + (if KeyOf(s.tasks[i].job) == k then 1 else 0)
                 == Sum(s.tasks, Accounting.SpawnedFor(k))
            && Sum(ts, ResendingFor(k)) == Sum(s.tasks, ResendingFor(k))
  {
    var s' := Began(s, i);
    SumWithout(s.tasks, i, Accounting.SpawnedFor(k));
    SumWithout(s.tasks, i, ResendingFor(k));
    if |s'.tasks| == |s.tasks| {
      SumUpdate(s.tasks, i, s'.tasks[i], Accounting.SpawnedFor(k));
      SumUpdate(s.tasks, i, s'.tasks[i], ResendingFor(k));
    }
  }

  lemma BeginWork(s: State, i: nat, k: Key)
    requires i < |s.tasks| && s.tasks[i].Spawned?
    ensures Work(Began(s, i), k) + (if KeyOf(s.tasks[i].job) == k then 1 else 0) == Work(s, k)
  {
    BeginTasks(s, i, k);
    assert Began(s, i).channel == s.channel && Began(s, i).calls == s.calls;
  }

  lemma CommitWork(s: State, i: nat, o: Outcome, k: Key)
    requires CanCommit(s, i, o)
    ensures KeyOf(s.tasks[i].job) == k || Work(Committed(s, i, o), k) == Work(s, k)
    ensures o.Abandon? ==> Work(Committed(s, i, o), k) == Work(s, k)
  {
    SumWithout(s.tasks, i, Accounting.SpawnedFor(k));
    SumWithout(s.tasks, i, ResendingFor(k));
    if o.Submitted? {
      SumUpdate(s.tasks, i, Resending(s.tasks[i].job), Accounting.SpawnedFor(k));
      SumUpdate(s.tasks, i, Resending(s.tasks[i].job), ResendingFor(k));
    }
  }

  lemma ResendWork(s: State, i: nat, k: Key)
    requires i < |s.tasks| && s.tasks[i].Resending?
    ensures Work(Resent(s, i), k) == Work(s, k)
  {
    SumWithout(s.tasks, i, Accounting.SpawnedFor(k));
    SumWithout(s.tasks, i, ResendingFor(k));
    AheadAppend(s.channel, Some(s.tasks[i].job), k);
  }

  lemma ShutdownWork(s: State, k: Key)
    ensures Work(Sent(s, None), k) <= Work(s, k)
  {
    AheadAppend(s.channel, None, k);
  }

  // ----- The account of a step -----

  /** The attempts made and to come are covered: by what was to come, by acceptance, or by a "Retrying!" answer. */
  ghost predicate Paid(s: State, e: Event, s': State, k: Key) {
    Attempt(k)(s, e) + ToCome(s', k) + Accounting.Known(s, k)
      <= ToCome(s, k) + Accounting.Known(s', k) + RetryAnswer(k)(s, e)
  }

  /**
   The step is no late start. A start is in time if its key is new. It also is if it
   brings no reader of its own, being a retry or behind a stop message, and whatever
   will read the entry would have started its attempt anyway.
   */
  ghost predicate InTime(s: State, e: Event, k: Key) {
    Exposure.StartsKey(s, e, k) ==>
      || Accounting.Known(s, k) == 0
      || ((s.calls[e.call].MoveForRetry? || !Healing.NoStop(s)) && (Startable(s, k) || Work(s, k) == 0))
  }

  /** A key that was never accepted is neither driven nor about to be retried. */
  ghost predicate Remembers(s: State) {
    && (forall c :: c in s.calls && c.MoveForRetry? ==> KeyOf(c.job) in Accepted(s))
    && (forall k :: k !in Accepted(s) ==> Drivers(s, k) == 0)
  }

  lemma RetriesRemembered(s: State, e: Event)
    requires Remembers(s) && Enabled(s, e)
    ensures forall c :: c in Apply(s, e).calls && c.MoveForRetry? ==> KeyOf(c.job) in Accepted(Apply(s, e))
  {
    var s' := Apply(s, e);
    ConservationStep(s, e);
    forall c | c in s'.calls && c.MoveForRetry? ensures KeyOf(c.job) in Accepted(s') {
      if c !in s.calls {
        assert e.Advance?;
      }
    }
  }

  lemma RemembersStep(s: State, e: Event)
    requires Inv(s) && Remembers(s) && Enabled(s, e)
    ensures Remembers(Apply(s, e))
  {
    RetriesRemembered(s, e);
    ConservationStep(s, e);
    forall k | k !in Accepted(Apply(s, e)) ensures Drivers(Apply(s, e), k) == 0 {
      Exposure.DriversChange(s, e, k);
    }
  }

  /** Nothing works on a key never accepted. */
  lemma NewNoWork(s: State, k: Key)
    requires Remembers(s) && k !in Accepted(s)
    ensures Work(s, k) == 0
  {
    WorkIsDriven(s, k);
  }

  lemma {:induction false} AheadIsSent(channel: seq<Message>, k: Key)
    ensures Ahead(channel, k) <= Sum(channel, MessageFor(k))
    decreases |channel|
  {
    if channel != [] {
      AheadIsSent(channel[1..], k);
    }
  }

  lemma {:induction false} TwoKinds(ts: seq<Task>, k: Key)
    ensures Sum(ts, Accounting.SpawnedFor(k)) + Sum(ts, ResendingFor(k)) <= Sum(ts, TaskFor(k))
    decreases |ts|
  {
    if ts != [] {
      TwoKinds(ts[1..], k);
    }
  }

  lemma WorkIsDriven(s: State, k: Key)
    ensures Work(s, k) <= Drivers(s, k)
  {
    AheadIsSent(s.channel, k);
    TwoKinds(s.tasks, k);
    SumBounded(s.calls, SendFor(k), NewFor(k), 0);
  }

  lemma PaidStartIff(s: State, i: nat, k: Key)
    requires Inv(s) && Remembers(s) && s.up && i < |s.calls| && Exposure.StartsKey(s, Advance(i), k)
    ensures Paid(s, Advance(i), Advanced(s, i), k) <==> InTime(s, Advance(i), k)
  {
    assert CallTyped(s.calls[i]);
    CallWork(s, i, k);
    if k !in Accepted(s) {
      NewNoWork(s, k);
    }
  }

  lemma PaidCall(s: State, i: nat, k: Key)
    requires Inv(s) && s.up && i < |s.calls| && !Exposure.StartsKey(s, Advance(i), k)
    ensures Paid(s, Advance(i), Advanced(s, i), k)
  {
    assert CallTyped(s.calls[i]);
    CallWork(s, i, k);
  }

  lemma PaidTask(s: State, e: Event, k: Key)
    requires Enabled(s, e) && (e.Begin? || e.Commit? || e.Resend?)
    ensures Paid(s, e, Apply(s, e), k)
  {
    match e
    case Begin(i) => BeginWork(s, i, k);
    case Commit(i, o) => CommitWork(s, i, o, k);
    case Resend(i) => ResendWork(s, i, k);
    case _ =>
  }

  lemma PaidOther(s: State, e: Event, k: Key)
    requires Inv(s) && Enabled(s, e) && !(e.Advance? || e.Begin? || e.Commit? || e.Resend?)
    ensures Paid(s, e, Apply(s, e), k)
  {
    match e
    case Arrive(job) => SumAppend(s.calls, ReadFinished(job), NewFor(k));
    case Receive =>
      if s.channel[0].Some? {
        ReceiveWork(s, k);
      }
    case Shutdown => ShutdownWork(s, k);
    case Boot(order) => BootIff(s, order);
    case _ =>
  }

  /** A step costs more than it is covered for exactly if it is a late start. */
  lemma PaidIff(s: State, e: Event, k: Key)
    requires Inv(s) && Remembers(s) && Enabled(s, e)
    ensures Paid(s, e, Apply(s, e), k) <==> InTime(s, e, k)
  {
    if e.Advance? {
      if Exposure.StartsKey(s, e, k) {
        PaidStartIff(s, e.call, k);
      } else {
        PaidCall(s, e.call, k);
      }
    } else if e.Begin? || e.Commit? || e.Resend? {
      PaidTask(s, e, k);
    } else {
      PaidOther(s, e, k);
    }
  }

  // ----- The account of a run -----

  ghost predicate InTimeRun(s: State, es: seq<Event>, k: Key)
    requires Runs(s, es)
    decreases |es|
  {
    es == [] || (InTime(s, es[0], k) && InTimeRun(Apply(s, es[0]), es[1..], k))
  }

  lemma {:induction false} PaidRun(s: State, es: seq<Event>, k: Key)
    requires Inv(s) && Remembers(s) && Runs(s, es) && InTimeRun(s, es, k)
    ensures Total(s, es, Attempt(k)) + ToCome(After(s, es), k) + Accounting.Known(s, k)
         <= ToCome(s, k) + Accounting.Known(After(s, es), k) + Total(s, es, RetryAnswer(k))
    decreases |es|
  {
    if es != [] {
      PaidIff(s, es[0], k);
      InvStep(s, es[0]);
      RemembersStep(s, es[0]);
      PaidRun(Apply(s, es[0]), es[1..], k);
    }
  }

  /**
   Work accounting with several threads: in every run from an empty database without
   late start, crashes and restarts included, a key costs at most one proving attempt
   once it is accepted, and one for each "Retrying!" answer.
   */
  lemma AttemptsBounded(env: Env, es: seq<Event>, k: Key)
    requires Runs(Initial(env), es) && InTimeRun(Initial(env), es, k)
    ensures Total(Initial(env), es, Attempt(k))
         <= Accounting.Known(After(Initial(env), es), k) + Total(Initial(env), es, RetryAnswer(k))
  {
    PaidRun(Initial(env), es, k);
  }

  // ----- What is to come does come -----

  ghost predicate NoStarts(s: State, es: seq<Event>, k: Key)
    requires Runs(s, es)
    decreases |es|
  {
    es == [] || (!Exposure.StartsKey(s, es[0], k) && NoStarts(Apply(s, es[0]), es[1..], k))
  }

  lemma {:induction false} NoStartsInTime(s: State, es: seq<Event>, k: Key)
    requires Runs(s, es) && NoStarts(s, es, k)
    ensures InTimeRun(s, es, k)
    decreases |es|
  {
    if es != [] {
      NoStartsInTime(Apply(s, es[0]), es[1..], k);
    }
  }

  /** The step does its part of the work to come, and nothing else that counts. */
  ghost predicate Spends(s: State, e: Event, k: Key) {
    && Enabled(s, e) && Drain.Internal(e) && !Exposure.StartsKey(s, e, k)
    && Attempt(k)(s, e) + ToCome(Apply(s, e), k) == ToCome(s, k)
    && RetryAnswer(k)(s, e) == 0
    && Accounting.Known(Apply(s, e), k) == Accounting.Known(s, k)
  }

  lemma CallSpends(s: State, k: Key) returns (e: Event)
    requires Inv(s) && s.up && Healing.NoStop(s) && Startable(s, k) && Sum(s.calls, NewFor(k)) > 0
    ensures Spends(s, e, k)
  {
    var i := SumWitness(s.calls, NewFor(k));
    e := Advance(i);
    CallWork(s, i, k);
  }

  lemma ResendSpends(s: State, k: Key) returns (e: Event)
    requires Inv(s) && s.up && Startable(s, k) && Sum(s.tasks, ResendingFor(k)) > 0
    ensures Spends(s, e, k)
  {
    var i := SumWitness(s.tasks, ResendingFor(k));
    e := Resend(i);
    ResendWork(s, i, k);
  }

  lemma BeginSpends(s: State, k: Key) returns (e: Event)
    requires Inv(s) && s.up && Startable(s, k) && Sum(s.tasks, Accounting.SpawnedFor(k)) > 0
    ensures Spends(s, e, k)
  {
    var i := SumWitness(s.tasks, Accounting.SpawnedFor(k));
    e := Begin(i);
    BeginWork(s, i, k);
  }

  lemma SomeSpends(s: State, k: Key) returns (e: Event)
    requires Inv(s) && ToCome(s, k) > 0
    ensures Spends(s, e, k) && Drain.Goes(s, e)
  {
    WorkIsDriven(s, k);
    if !s.up {
      assert false;
    } else if Ahead(s.channel, k) > 0 {
      e := Receive;
      ReceiveWork(s, k);
    } else if Sum(s.tasks, Accounting.SpawnedFor(k)) > 0 {
      e := BeginSpends(s, k);
    } else if Sum(s.tasks, ResendingFor(k)) > 0 {
      e := ResendSpends(s, k);
    } else {
      e := CallSpends(s, k);
    }
  }

  /** The run makes all attempts that are to come, and no start, answer or acceptance. */
  ghost predicate SpendsAll(s: State, es: seq<Event>, k: Key) {
    && Runs(s, es) && NoStarts(s, es, k)
    && Total(s, es, Attempt(k)) == ToCome(s, k)
    && Total(s, es, RetryAnswer(k)) == 0
    && Accounting.Known(After(s, es), k) == Accounting.Known(s, k)
  }

  lemma SpendsCons(s: State, e: Event, es: seq<Event>, k: Key)
    requires Spends(s, e, k) && SpendsAll(Apply(s, e), es, k)
    ensures SpendsAll(s, [e] + es, k)
  {
    TotalExtend(s, e, es, Attempt(k));
    TotalExtend(s, e, es, RetryAnswer(k));
    assert ([e] + es)[1..] == es;
  }

  lemma {:induction false} SpendToCome(s: State, k: Key) returns (es: seq<Event>)
    requires Inv(s)
    ensures SpendsAll(s, es, k)
    decreases Drain.Potential(s)
  {
    if ToCome(s, k) == 0 {
      es := [];
    } else {
      var e := SomeSpends(s, k);
      InvStep(s, e);
      Drain.PotentialFalls(s, e);
      var rest := SpendToCome(Apply(s, e), k);
      SpendsCons(s, e, rest, k);
      es := [e] + rest;
    }
  }

  // ----- Exactly when the bound is overrun -----

  /** The run has made more attempts than acceptance and its "Retrying!" answers cover. */
  ghost predicate Overruns(s: State, es: seq<Event>, k: Key) {
    Runs(s, es) && Total(s, es, Attempt(k)) > Accounting.Known(After(s, es), k) + Total(s, es, RetryAnswer(k))
  }

  /** It has made, or has coming, more than that. */
  ghost predicate WillOverrun(s: State, es: seq<Event>, k: Key)
    requires Runs(s, es)
  {
    Total(s, es, Attempt(k)) + ToCome(After(s, es), k)
      > Accounting.Known(After(s, es), k) + Total(s, es, RetryAnswer(k))
  }

  /** The run goes on, without starting the key again, and ends up over the bound. */
  ghost predicate LeadsOver(s: State, es: seq<Event>, fs: seq<Event>, k: Key)
    requires Runs(s, es)
  {
    Runs(After(s, es), fs) && NoStarts(After(s, es), fs, k) && Overruns(s, es + fs, k)
  }

  lemma {:induction false} RemembersAlways(s: State, es: seq<Event>)
    requires Inv(s) && Remembers(s) && Runs(s, es)
    ensures Inv(After(s, es)) && Remembers(After(s, es))
    decreases |es|
  {
    if es != [] {
      RemembersStep(s, es[0]);
      InvStep(s, es[0]);
      RemembersAlways(Apply(s, es[0]), es[1..]);
    }
  }

  lemma RunInv(env: Env, es: seq<Event>)
    requires Runs(Initial(env), es)
    ensures Inv(After(Initial(env), es)) && Remembers(After(Initial(env), es))
  {
    RemembersAlways(Initial(env), es);
  }

  lemma TotalsConcat(s: State, es: seq<Event>, fs: seq<Event>, k: Key)
    requires Runs(s, es) && Runs(After(s, es), fs)
    ensures Runs(s, es + fs) && After(s, es + fs) == After(After(s, es), fs)
    ensures Total(s, es + fs, Attempt(k)) == Total(s, es, Attempt(k)) + Total(After(s, es), fs, Attempt(k))
    ensures Total(s, es + fs, RetryAnswer(k))
         == Total(s, es, RetryAnswer(k)) + Total(After(s, es), fs, RetryAnswer(k))
  {
    RunsConcat(s, es, fs);
    TotalConcat(s, es, fs, Attempt(k));
    TotalConcat(s, es, fs, RetryAnswer(k));
  }

  lemma LeadsOverOnlyIf(env: Env, es: seq<Event>, fs: seq<Event>, k: Key)
    requires Runs(Initial(env), es) && LeadsOver(Initial(env), es, fs, k)
    ensures WillOverrun(Initial(env), es, k)
  {
    var s := After(Initial(env), es);
    RunInv(env, es);
    TotalsConcat(Initial(env), es, fs, k);
    NoStartsInTime(s, fs, k);
    PaidRun(s, fs, k);
  }

  /**
   Work accounting with several threads, exactly: after any run from an empty database,
   some continuation in which no call starts the key again overruns the bound, if and
   only if the attempts made and to come already exceed it.
   */
  lemma OverrunIff(env: Env, es: seq<Event>, k: Key)
    requires Runs(Initial(env), es)
    ensures (exists fs :: LeadsOver(Initial(env), es, fs, k)) <==> WillOverrun(Initial(env), es, k)
  {
    if WillOverrun(Initial(env), es, k) {
      RunInv(env, es);
      var fs := SpendToCome(After(Initial(env), es), k);
      TotalsConcat(Initial(env), es, fs, k);
      assert LeadsOver(Initial(env), es, fs, k);
    }
    forall fs | LeadsOver(Initial(env), es, fs, k) ensures WillOverrun(Initial(env), es, k) {
      LeadsOverOnlyIf(env, es, fs, k);
    }
  }
}
