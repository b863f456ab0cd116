/**
 Which late start breaks the work accounting. As long as calls start a key only while
 it is undriven, and insert it only if it is new, the account is not just kept but
 even; so the first start after that overruns it exactly if it comes too late.
 */
module LateStarts {
  import opened Jobs
  import opened Sums
  import opened Engine
  import opened Fine
  import opened FineAccounting
  import Accounting
  import Exposure
  import Healing

  /** A start of the key finds it undriven, and an insert finds it in neither tree. */
  ghost predicate Careful(s: State, e: Event, k: Key) {
    Exposure.StartsKey(s, e, k) ==>
      Drivers(s, k) == 0 && (s.calls[e.call].InsertQueue? ==> Accounting.Known(s, k) == 0)
  }

  ghost predicate CarefulRun(s: State, es: seq<Event>, k: Key)
    requires Runs(s, es)
    decreases |es|
  {
    es == [] || (Careful(s, es[0], k) && CarefulRun(Apply(s, es[0]), es[1..], k))
  }

  predicate RetriesNow(c: Call, k: Key) {
    c.SendJob? && c.answer.Retrying? && KeyOf(c.job) == k
  }

  /** At most one driver, none of a key never accepted, and a retry about to be answered stands in the queue. */
  ghost predicate Sole(s: State, k: Key) {
    && Drivers(s, k) <= 1
    && (Accounting.Known(s, k) == 0 ==> Drivers(s, k) == 0)
    && (forall c :: c in s.calls && RetriesNow(c, k) ==> Lookup(s.queue, k) == Some(RemoteZkProofRequesting))
  }

  ghost function ReadingFor(k: Key): Task -> nat {
    (t: Task) => if !t.Driving? && KeyOf(t.job) == k then 1 else 0
  }

  /** The work on a key if no stop message were to cut any of it off. */
  ghost function Standing(s: State, k: Key): nat {
    Sum(s.channel, MessageFor(k)) + Sum(s.tasks, ReadingFor(k)) + Sum(s.calls, NewFor(k))
  }

  ghost function Due(s: State, k: Key): nat {
    if Startable(s, k) then Standing(s, k) else 0
  }

  lemma StandingIsDriven(s: State, k: Key)
    ensures Standing(s, k) <= Drivers(s, k)
  {
    SumBounded(s.tasks, TaskFor(k), ReadingFor(k), 0);
    SumBounded(s.calls, SendFor(k), NewFor(k), 0);
  }

  /** A task waiting for its prover is the only driver, so no call is about to send. */
  lemma TaskAlone(s: State, i: nat, k: Key)
    requires i < |s.tasks| && s.tasks[i].Driving? && KeyOf(s.tasks[i].job) == k && Drivers(s, k) <= 1
    ensures Drivers(s, k) == 1 && Standing(s, k) == 0
    ensures forall c :: c in s.calls ==> !RetriesNow(c, k)
  {
    SumWithout(s.tasks, i, TaskFor(k));
    SumWithout(s.tasks, i, ReadingFor(k));
    SumBounded(Without(s.tasks, i), TaskFor(k), ReadingFor(k), 0);
    SumBounded(s.calls, SendFor(k), NewFor(k), 0);
    forall c | c in s.calls ensures !RetriesNow(c, k) {
      var j :| 0 <= j < |s.calls| && s.calls[j] == c;
      SumMember(s.calls, j, SendFor(k));
    }
  }

  lemma UndrivenNoRetry(s: State, k: Key)
    requires Drivers(s, k) == 0
    ensures Standing(s, k) == 0
    ensures forall c :: c in s.calls ==> !RetriesNow(c, k)
  {
    StandingIsDriven(s, k);
    forall c | c in s.calls ensures !RetriesNow(c, k) {
      var j :| 0 <= j < |s.calls| && s.calls[j] == c;
      SumMember(s.calls, j, SendFor(k));
    }
  }

  // ----- Standing work and work -----

  lemma {:induction false} AheadIsAll(channel: seq<Message>, k: Key)
    ensures (forall m :: m in channel ==> m.Some?) ==> Ahead(channel, k) == Sum(channel, MessageFor(k))
    decreases |channel|
  {
    if channel != [] {
      AheadIsAll(channel[1..], k);
      assert forall m :: m in channel <==> m == channel[0] || m in channel[1..];
    }
  }

  lemma {:induction false} KindsOfTasks(ts: seq<Task>, k: Key)
    ensures Sum(ts, Accounting.SpawnedFor(k)) + Sum(ts, ResendingFor(k)) == Sum(ts, ReadingFor(k))
    decreases |ts|
  {
    if ts != [] {
      KindsOfTasks(ts[1..], k);
    }
  }

  /** A stop message can only cut work off, and without one nothing is. */
  lemma WorkIsStanding(s: State, k: Key)
    ensures Work(s, k) <= Standing(s, k)
    ensures Healing.NoStop(s) ==> Work(s, k) == Standing(s, k)
  {
    AheadIsSent(s.channel, k);
    AheadIsAll(s.channel, k);
    KindsOfTasks(s.tasks, k);
  }

  lemma CallStanding(s: State, i: nat, k: Key)
    requires i < |s.calls|
    ensures var c, t := s.calls[i], Next(s, s.calls[i]);
            Standing(Advanced(s, i), k) + NewFor(k)(c)
              == Standing(s, k) + (if t.Goes? then NewFor(k)(t.call) else 0)
                                + (if c.SendJob? && KeyOf(c.job) == k then 1 else 0)
  {
    var c := s.calls[i];
    if Next(s, c).Goes? {
      SumUpdate(s.calls, i, Next(s, c).call, NewFor(k));
    } else {
      SumWithout(s.calls, i, NewFor(k));
    }
    if c.SendJob? {
      SumAppend(s.channel, Some(c.job), MessageFor(k));
    }
  }

  // ----- Sole, kept -----

  /** Only a start or a commit of the key itself changes its queue entry. */
  lemma EntryKept(s: State, e: Event, k: Key)
    requires Inv(s) && Enabled(s, e) && !Exposure.StartsKey(s, e, k)
    requires e.Commit? ==> KeyOf(s.tasks[e.task].job) != k
    ensures Lookup(Apply(s, e).queue, k) == Lookup(s.queue, k)
  {
    if e.Boot? {
      BootIff(s, e.order);
    }
  }

  lemma NewRetry(s: State, e: Event, k: Key)
    requires Inv(s) && Enabled(s, e) && !Exposure.StartsKey(s, e, k)
    ensures forall c :: c in Apply(s, e).calls && RetriesNow(c, k) ==> c in s.calls
  {
    if e.Boot? {
      BootIff(s, e.order);
    }
  }

  lemma SoleStart(s: State, i: nat, k: Key)
    requires Inv(s) && Remembers(s) && Sole(s, k) && s.up && i < |s.calls|
    requires Exposure.StartsKey(s, Advance(i), k) && Careful(s, Advance(i), k)
    ensures Sole(Advanced(s, i), k)
  {
    Exposure.DriversChange(s, Advance(i), k);
    UndrivenNoRetry(s, k);
    assert CallTyped(s.calls[i]);
  }

  lemma SoleStep(s: State, e: Event, k: Key)
    requires Inv(s) && Remembers(s) && Sole(s, k) && Enabled(s, e) && Careful(s, e, k)
    ensures Sole(Apply(s, e), k)
  {
    if Exposure.StartsKey(s, e, k) {
      SoleStart(s, e.call, k);
    } else {
      var s' := Apply(s, e);
      Exposure.DriversChange(s, e, k);
      ConservationStep(s, e);
      NewRetry(s, e, k);
      if e.Commit? && KeyOf(s.tasks[e.task].job) == k {
        TaskAlone(s, e.task, k);
      } else {
        EntryKept(s, e, k);
      }
    }
  }

  // ----- The account, even -----

  ghost predicate Even(s: State, e: Event, s': State, k: Key) {
    Attempt(k)(s, e) + Due(s', k) + Accounting.Known(s, k)
      == Due(s, k) + Accounting.Known(s', k) + RetryAnswer(k)(s, e)
  }

  lemma EvenStart(s: State, i: nat, k: Key)
    requires Inv(s) && Remembers(s) && s.up && i < |s.calls|
    requires Exposure.StartsKey(s, Advance(i), k) && Careful(s, Advance(i), k)
    ensures Even(s, Advance(i), Advanced(s, i), k)
  {
    assert CallTyped(s.calls[i]);
    CallStanding(s, i, k);
    UndrivenNoRetry(s, k);
  }

  lemma EvenSend(s: State, i: nat, k: Key)
    requires Inv(s) && Sole(s, k) && s.up && i < |s.calls| && s.calls[i].SendJob?
    ensures Even(s, Advance(i), Advanced(s, i), k)
  {
    var c := s.calls[i];
    assert c in s.calls && CallTyped(c);
    CallStanding(s, i, k);
  }

  lemma EvenRead(s: State, i: nat, k: Key)
    requires Inv(s) && s.up && i < |s.calls| && !s.calls[i].SendJob? && !Exposure.StartsKey(s, Advance(i), k)
    ensures Even(s, Advance(i), Advanced(s, i), k)
  {
    CallStanding(s, i, k);
  }

  lemma CommitStanding(s: State, i: nat, o: Outcome, k: Key)
    requires CanCommit(s, i, o)
    ensures Standing(Committed(s, i, o), k)
         == Standing(s, k) + (if o.Submitted? && KeyOf(s.tasks[i].job) == k then 1 else 0)
  {
    SumWithout(s.tasks, i, ReadingFor(k));
    if o.Submitted? {
      SumUpdate(s.tasks, i, Resending(s.tasks[i].job), ReadingFor(k));
    }
  }

  lemma EvenCommit(s: State, i: nat, o: Outcome, k: Key)
    requires Sole(s, k) && CanCommit(s, i, o)
    ensures Even(s, Commit(i, o), Committed(s, i, o), k)
  {
    CommitStanding(s, i, o, k);
    if KeyOf(s.tasks[i].job) == k {
      TaskAlone(s, i, k);
    }
  }

  lemma BeginStanding(s: State, i: nat, k: Key)
    requires i < |s.tasks| && s.tasks[i].Spawned?
    ensures Standing(Began(s, i), k) + (if KeyOf(s.tasks[i].job) == k then 1 else 0) == Standing(s, k)
  {
    var s' := Began(s, i);
    SumWithout(s.tasks, i, ReadingFor(k));
    if |s'.tasks| == |s.tasks| {
      SumUpdate(s.tasks, i, s'.tasks[i], ReadingFor(k));
    }
  }

  lemma EvenBegin(s: State, i: nat, k: Key)
    requires i < |s.tasks| && s.tasks[i].Spawned?
    ensures Even(s, Begin(i), Began(s, i), k)
  {
    BeginStanding(s, i, k);
  }

  lemma EvenReceive(s: State, k: Key)
    requires s.channel != [] && s.channel[0].Some?
    ensures Even(s, Receive, Received(s), k)
  {
    SumAppend(s.tasks, Spawned(s.channel[0].value), ReadingFor(k));
    assert Sum(s.channel, MessageFor(k)) == MessageFor(k)(s.channel[0]) + Sum(s.channel[1..], MessageFor(k));
  }

  lemma EvenResend(s: State, i: nat, k: Key)
    requires i < |s.tasks| && s.tasks[i].Resending?
    ensures Even(s, Resend(i), Resent(s, i), k)
  {
    SumWithout(s.tasks, i, ReadingFor(k));
    SumAppend(s.channel, Some(s.tasks[i].job), MessageFor(k));
  }

  /** A process that has ended, or may still serve: one that is gone with queued work is past accounting. */
  predicate Lives(s: State) {
    s.up || s.queue == map[]
  }

  lemma EvenOther(s: State, e: Event, k: Key)
    requires Inv(s) && Enabled(s, e) && !(e.Advance? || e.Begin? || e.Commit?)
    requires Lives(Apply(s, e))
    ensures Even(s, e, Apply(s, e), k)
  {
    match e
    case Arrive(job) => SumAppend(s.calls, ReadFinished(job), NewFor(k));
    case Receive =>
      if s.channel[0].Some? {
        EvenReceive(s, k);
      }
    case Resend(i) => EvenResend(s, i, k);
    case Shutdown => SumAppend(s.channel, None, MessageFor(k));
    case Boot(order) => BootIff(s, order);
    case _ =>
  }

  lemma EvenStep(s: State, e: Event, k: Key)
    requires Inv(s) && Remembers(s) && Sole(s, k) && Enabled(s, e) && Careful(s, e, k) && Lives(Apply(s, e))
    ensures Even(s, e, Apply(s, e), k)
  {
    if Exposure.StartsKey(s, e, k) {
      EvenStart(s, e.call, k);
    } else if e.Advance? {
      if s.calls[e.call].SendJob? {
        EvenSend(s, e.call, k);
      } else {
        EvenRead(s, e.call, k);
      }
    } else if e.Begin? {
      EvenBegin(s, e.task, k);
    } else if e.Commit? {
      EvenCommit(s, e.task, e.outcome, k);
    } else {
      EvenOther(s, e, k);
    }
  }

  /** What does not live never lives again. */
  lemma LivesOn(s: State, es: seq<Event>)
    requires Inv(s) && Runs(s, es) && Lives(After(s, es))
    ensures Lives(s)
  {
    if !Lives(s) {
      ExitWithWorkIsFinal(s, es);
    }
  }

  lemma {:induction false} EvenRun(s: State, es: seq<Event>, k: Key)
    requires Inv(s) && Remembers(s) && Sole(s, k) && Runs(s, es) && CarefulRun(s, es, k) && Lives(After(s, es))
    ensures Sole(After(s, es), k)
    ensures Total(s, es, Attempt(k)) + Due(After(s, es), k) + Accounting.Known(s, k)
         == Due(s, k) + Accounting.Known(After(s, es), k) + Total(s, es, RetryAnswer(k))
    decreases |es|
  {
    if es != [] {
      var s' := Apply(s, es[0]);
      InvStep(s, es[0]);
      RemembersStep(s, es[0]);
      LivesOn(s', es[1..]);
      SoleStep(s, es[0], k);
      EvenStep(s, es[0], k);
      EvenRun(s', es[1..], k);
    }
  }

  // ----- The first late start -----

  lemma StepTotals(s: State, e: Event, k: Key)
    requires Enabled(s, e)
    ensures Runs(s, [e]) && After(s, [e]) == Apply(s, e)
    ensures Total(s, [e], Attempt(k)) == Attempt(k)(s, e) && Total(s, [e], RetryAnswer(k)) == RetryAnswer(k)(s, e)
  {
    TotalExtend(s, e, [], Attempt(k));
    TotalExtend(s, e, [], RetryAnswer(k));
    assert [e] + [] == [e];
  }

  /** What comes of a start, against what is due before it. */
  lemma StartDue(s: State, e: Event, k: Key)
    requires Inv(s) && Remembers(s) && Sole(s, k) && Enabled(s, e) && Exposure.StartsKey(s, e, k)
    ensures ToCome(Apply(s, e), k) + Accounting.Known(s, k) > Due(s, k) + 1 <==> !InTime(s, e, k)
  {
    assert CallTyped(s.calls[e.call]);
    CallWork(s, e.call, k);
    WorkIsStanding(s, k);
    StandingIsDriven(s, k);
  }

  /** After a careful run, what a start makes over the bound is what it makes late. */
  lemma LateStartOverruns(env: Env, es: seq<Event>, e: Event, k: Key)
    requires Runs(Initial(env), es) && CarefulRun(Initial(env), es, k)
    requires Enabled(After(Initial(env), es), e) && Exposure.StartsKey(After(Initial(env), es), e, k)
    ensures Runs(Initial(env), es + [e]) && After(Initial(env), es + [e]) == Apply(After(Initial(env), es), e)
    ensures WillOverrun(Initial(env), es + [e], k) <==> !InTime(After(Initial(env), es), e, k)
  {
    var s0, s := Initial(env), After(Initial(env), es);
    RunInv(env, es);
    EvenRun(s0, es, k);
    StartDue(s, e, k);
    StepTotals(s, e, k);
    TotalsConcat(s0, es, [e], k);
  }

  /**
   The first start without care, exactly: after any careful run from an empty database
   a start of the key can lead over the bound, with no further start, if and only if
   it is late; for an insert with no stop message under way, if and only if the key was
   accepted before.
   */
  lemma LateStartIff(env: Env, es: seq<Event>, e: Event, k: Key)
    requires Runs(Initial(env), es) && CarefulRun(Initial(env), es, k)
    requires Enabled(After(Initial(env), es), e) && Exposure.StartsKey(After(Initial(env), es), e, k)
    ensures Runs(Initial(env), es + [e])
    ensures (exists fs :: LeadsOver(Initial(env), es + [e], fs, k)) <==> !InTime(After(Initial(env), es), e, k)
    ensures var s := After(Initial(env), es);
            s.calls[e.call].InsertQueue? && Healing.NoStop(s) ==>
              ((exists fs :: LeadsOver(Initial(env), es + [e], fs, k)) <==> k in Accepted(s))
  {
    LateStartOverruns(env, es, e, k);
    OverrunIff(env, es + [e], k);
  }
}
