/**
 Queued keys without a driver, with several threads: exactly which steps leave one
 behind, and exactly when it stays so for good.
 */
module Frozen {
  import opened Jobs
  import opened Engine
  import opened Fine
  import Bincode
  import Exposure
  import Healing
  import Sums

  // ----- How a queued key is left behind -----

  /** The process ends with this step. */
  predicate EndsProcess(s: State, e: Event) {
    e.Crash? || (e.Receive? && s.channel != [] && s.channel[0].None?)
  }

  lemma LeftByCommit(s: State, i: nat, o: Outcome, k: Key)
    requires CanCommit(s, i, o) && k in s.queue && Drivers(s, k) > 0
    ensures k in Committed(s, i, o).queue && Drivers(Committed(s, i, o), k) == 0
       <==> Drivers(s, k) == 1 && o.Abandon? && KeyOf(s.tasks[i].job) == k
  {
    Healing.CommittedDrivers(s, i, o, k);
  }

  /** Every step but a commit leaves a queued key queued. */
  lemma StaysQueued(s: State, e: Event, k: Key)
    requires Enabled(s, e) && k in s.queue && !e.Commit?
    ensures k in Apply(s, e).queue
  {
  }

  lemma NotLeft(s: State, e: Event, k: Key)
    requires Inv(s) && Enabled(s, e) && s.up && k in s.queue && Drivers(s, k) > 0 && !e.Commit?
    ensures Drivers(Apply(s, e), k) == 0 <==> EndsProcess(s, e)
  {
    match e
    case Arrive(job) => Healing.ArrivedDrivers(s, job, k);
    case Advance(i) => Healing.AdvancedDrivers(s, i, k);
    case Receive =>
      if s.channel[0].Some? {
        Healing.ReceivedDrivers(s, k);
      } else {
        Exposure.GoneUndriven(Exited(s), k);
      }
    case Begin(i) => Healing.BeganDrivers(s, i, k);
    case Resend(i) => Healing.ResentDrivers(s, i, k);
    case Shutdown => Healing.MessageAdded(s, None, k);
    case Crash => Exposure.GoneUndriven(Exited(s), k);
    case Commit(_, _) | Boot(_) =>
  }

  /**
   A driven key is left in the queue undriven exactly by the end of the process, or by
   an abandoned prover call of its only driver.
   */
  lemma LeftIff(s: State, e: Event, k: Key)
    requires Inv(s) && Enabled(s, e) && k in s.queue && Drivers(s, k) > 0
    ensures k in Apply(s, e).queue && Drivers(Apply(s, e), k) == 0
       <==> || EndsProcess(s, e)
            || (e.Commit? && e.outcome.Abandon? && KeyOf(s.tasks[e.task].job) == k && Drivers(s, k) == 1)
  {
    if !s.up {
      Exposure.GoneUndriven(s, k);
    } else if e.Commit? {
      LeftByCommit(s, e.task, e.outcome, k);
    } else {
      StaysQueued(s, e, k);
      NotLeft(s, e, k);
    }
  }

  // ----- When it stays behind -----

  ghost predicate LeftBehind(s: State, k: Key) {
    k in s.queue && Drivers(s, k) == 0
  }

  predicate Retryable(s: State, k: Key) {
    k in s.finished && s.finished[k].Failed? && s.finished[k].retry.Some?
  }

  /** A call is at its insert of the key. */
  ghost predicate AtInsert(s: State, k: Key) {
    exists c :: c in s.calls && KeyOf(c.job) == k && c.InsertQueue?
  }

  /** The process serves, and some call starts the key again, or will when it reads the failure beside the entry. */
  ghost predicate Thaws(s: State, k: Key) {
    s.up && (AtInsert(s, k) || Exposure.AboutToMove(s, k) || Retryable(s, k))
  }

  /** A step that leaves the key's entries alone and brings no start of it nearer. */
  lemma StaysFrozen(s: State, s': State, k: Key)
    requires LeftBehind(s, k) && !Thaws(s, k) && s.up
    requires Lookup(s'.queue, k) == Lookup(s.queue, k) && Lookup(s'.finished, k) == Lookup(s.finished, k)
    requires forall c :: c in s'.calls && KeyOf(c.job) == k && (c.InsertQueue? || c.MoveForRetry?) ==> c in s.calls
    ensures !Thaws(s', k)
  {
  }

  lemma NoTask(s: State, i: nat, k: Key)
    requires Drivers(s, k) == 0 && i < |s.tasks|
    ensures KeyOf(s.tasks[i].job) != k
  {
    Sums.SumMember(s.tasks, i, TaskFor(k));
  }

  lemma FrozenCall(s: State, i: nat, k: Key)
    requires Inv(s) && LeftBehind(s, k) && !Thaws(s, k) && s.up && i < |s.calls|
    ensures !Thaws(Advanced(s, i), k)
    ensures Lookup(Advanced(s, i).queue, k) == Some(s.queue[k]) && Drivers(Advanced(s, i), k) == 0
  {
    var c := s.calls[i];
    assert c in s.calls;
    assert k in s.finished ==> FinishedStatus(s.finished[k]);
    Exposure.DriversChange(s, Advance(i), k);
    StaysFrozen(s, Advanced(s, i), k);
  }

  lemma FrozenCommit(s: State, i: nat, o: Outcome, k: Key)
    requires LeftBehind(s, k) && !Thaws(s, k) && s.up && CanCommit(s, i, o)
    ensures !Thaws(Committed(s, i, o), k)
    ensures Lookup(Committed(s, i, o).queue, k) == Some(s.queue[k]) && Drivers(Committed(s, i, o), k) == 0
  {
    NoTask(s, i, k);
    Healing.CommittedDrivers(s, i, o, k);
    StaysFrozen(s, Committed(s, i, o), k);
  }

  lemma FrozenArrive(s: State, job: Job, k: Key)
    requires LeftBehind(s, k) && !Thaws(s, k) && s.up
    ensures !Thaws(Arrived(s, job), k) && Drivers(Arrived(s, job), k) == 0
  {
    Healing.ArrivedDrivers(s, job, k);
    StaysFrozen(s, Arrived(s, job), k);
  }

  lemma FrozenBegin(s: State, i: nat, k: Key)
    requires LeftBehind(s, k) && !Thaws(s, k) && s.up && i < |s.tasks|
    ensures !Thaws(Began(s, i), k) && Drivers(Began(s, i), k) == 0
  {
    NoTask(s, i, k);
    Healing.BeganDrivers(s, i, k);
    StaysFrozen(s, Began(s, i), k);
  }

  lemma FrozenResend(s: State, i: nat, k: Key)
    requires LeftBehind(s, k) && !Thaws(s, k) && s.up && i < |s.tasks|
    ensures !Thaws(Resent(s, i), k) && Drivers(Resent(s, i), k) == 0
  {
    Healing.ResentDrivers(s, i, k);
    StaysFrozen(s, Resent(s, i), k);
  }

  lemma FrozenShutdown(s: State, k: Key)
    requires LeftBehind(s, k) && !Thaws(s, k) && s.up
    ensures !Thaws(Sent(s, None), k) && Drivers(Sent(s, None), k) == 0
  {
    Healing.MessageAdded(s, None, k);
    StaysFrozen(s, Sent(s, None), k);
  }

  lemma FrozenReceive(s: State, k: Key)
    requires LeftBehind(s, k) && !Thaws(s, k) && s.up && s.channel != []
    ensures !Thaws(Received(s), k)
    ensures Received(s).queue == s.queue && Drivers(Received(s), k) == 0
  {
    if s.channel[0].Some? {
      Healing.ReceivedDrivers(s, k);
      StaysFrozen(s, Received(s), k);
    } else {
      Exposure.GoneUndriven(Exited(s), k);
    }
  }

  lemma FrozenStep(s: State, e: Event, k: Key)
    requires Inv(s) && LeftBehind(s, k) && !Thaws(s, k) && Enabled(s, e)
    ensures !Thaws(Apply(s, e), k)
    ensures Lookup(Apply(s, e).queue, k) == Some(s.queue[k]) && Drivers(Apply(s, e), k) == 0
  {
    match e
    case Advance(i) => FrozenCall(s, i, k);
    case Commit(i, o) => FrozenCommit(s, i, o, k);
    case Receive => FrozenReceive(s, k);
    case Arrive(job) => FrozenArrive(s, job, k);
    case Begin(i) => FrozenBegin(s, i, k);
    case Resend(i) => FrozenResend(s, i, k);
    case Shutdown => FrozenShutdown(s, k);
    case Crash => Exposure.GoneUndriven(Exited(s), k);
    case Boot(order) => BootIff(s, order);
  }

  lemma {:induction false} FrozenRun(s: State, es: seq<Event>, k: Key)
    requires Inv(s) && LeftBehind(s, k) && !Thaws(s, k) && Runs(s, es)
    ensures Lookup(After(s, es).queue, k) == Some(s.queue[k]) && Drivers(After(s, es), k) == 0
    decreases |es|
  {
    if es != [] {
      FrozenStep(s, es[0], k);
      InvStep(s, es[0]);
      FrozenRun(Apply(s, es[0]), es[1..], k);
    }
  }

  // ----- And when it does not -----

  lemma StartThaws(s: State, i: nat, k: Key)
    requires Inv(s) && s.up && Exposure.StartsKey(s, Advance(i), k)
    ensures Runs(s, [Advance(i)]) && Drivers(After(s, [Advance(i)]), k) > 0
  {
    Exposure.DriversChange(s, Advance(i), k);
    Extend(s, Advance(i), []);
    assert [Advance(i)] + [] == [Advance(i)];
  }

  /** A new call finds the failure, and retries it. */
  lemma RetryThaws(s: State, k: Key) returns (es: seq<Event>)
    requires Inv(s) && s.up && k in s.queue && Retryable(s, k)
    ensures Runs(s, es) && Drivers(After(s, es), k) > 0
  {
    assert IsTreeKey(k);
    var a: Anchor :| k == Bincode.EncodeAnchor(a);
    var job, n := Job(a, Input([])), |s.calls|;
    var s1 := Apply(s, Arrive(job));
    var s2 := Apply(s1, Advance(n));
    InvStep(s, Arrive(job));
    InvStep(s1, Advance(n));
    assert s2.calls[n].MoveForRetry? && KeyOf(s2.calls[n].job) == k;
    StartThaws(s2, n, k);
    Extend(s1, Advance(n), [Advance(n)]);
    es := [Advance(n)] + [Advance(n)];
    Extend(s, Arrive(job), es);
    es := [Arrive(job)] + es;
  }

  lemma ThawRun(s: State, k: Key) returns (es: seq<Event>)
    requires Inv(s) && k in s.queue && Thaws(s, k)
    ensures Runs(s, es) && Drivers(After(s, es), k) > 0
  {
    if Retryable(s, k) {
      es := RetryThaws(s, k);
    } else {
      var c :| c in s.calls && KeyOf(c.job) == k && (c.InsertQueue? || c.MoveForRetry?);
      var i :| 0 <= i < |s.calls| && s.calls[i] == c;
      StartThaws(s, i, k);
      es := [Advance(i)];
    }
  }

  /**
   Frozen entries with several threads, exactly: an undriven queued key keeps its status
   and stays undriven in every fine run, crashes and restarts included, if and only if
   no call is at its insert or its retry and no retryable failure lies beside it.
   */
  lemma FrozenIff(s: State, k: Key)
    requires Inv(s) && LeftBehind(s, k)
    ensures (forall es :: Runs(s, es) ==>
               Lookup(After(s, es).queue, k) == Some(s.queue[k]) && Drivers(After(s, es), k) == 0)
       <==> !Thaws(s, k)
  {
    if Thaws(s, k) {
      var es := ThawRun(s, k);
      assert Runs(s, es) && Drivers(After(s, es), k) > 0;
    } else {
      forall es | Runs(s, es)
        ensures Lookup(After(s, es).queue, k) == Some(s.queue[k]) && Drivers(After(s, es), k) == 0
      {
        FrozenRun(s, es, k);
      }
    }
  }
}
