/**
 What a stop message does to the jobs at hand. The log promises that they are finished;
 the worker ends the process as soon as it reads the message, and a process that ends
 with anything queued never serves again. Which jobs that can cost, exactly.
 */
module Shutdown {
  import opened Jobs
  import opened Engine
  import opened Fine
  import Drain
  import Exposure
  import Healing
  import Runner
  import UniqueDriver

  /** The key's job is queued, and no run ever changes anything again. */
  ghost predicate Lost(s: State, k: Key) {
    k in s.queue && forall es :: Runs(s, es) ==> After(s, es) == s
  }

  /**
   The engine's own steps, without new call, crash, restart or abandoned prover call, end
   with the key's job lost.
   */
  ghost predicate EndsLosing(s: State, es: seq<Event>, k: Key) {
    Runs(s, es) && (forall e :: e in es ==> Drain.Internal(e)) && Lost(After(s, es), k)
  }

  // ----- What may still bring the key into the queue -----

  /** A call has yet to look the key up. */
  ghost predicate LookedUp(s: State, k: Key) {
    exists c :: c in s.calls && KeyOf(c.job) == k && c.ReadFinished?
  }

  /** A call that looks the key up now goes on to the queue. */
  predicate GoesOn(s: State, k: Key) {
    if k in s.finished then s.finished[k].Failed? && s.finished[k].retry.Some?
    else k !in s.queue && InitialStatus(s.env.proverType).Some?
  }

  /** A task is asking the network for the key's proof, and will queue the answer. */
  ghost predicate BeingAsked(s: State, k: Key) {
    exists t :: t in s.tasks && KeyOf(t.job) == k && t.Driving? && t.status.RemoteZkProofRequesting?
  }

  /** The key is queued, or a call or task at hand may yet queue it. */
  ghost predicate Exposed(s: State, k: Key) {
    || k in s.queue
    || Exposure.AboutToInsert(s, k)
    || Exposure.AboutToMove(s, k)
    || BeingAsked(s, k)
    || (LookedUp(s, k) && (GoesOn(s, k) || Exposure.BeingProved(s, k)))
  }

  // ----- Otherwise it never gets there -----

  /** A step that does not queue the key and brings nothing new to bear on it. */
  lemma KeptAway(s: State, s': State, k: Key)
    requires !Exposed(s, k) && s'.env == s.env && k !in s'.queue
    requires Lookup(s'.finished, k) == Lookup(s.finished, k) || !LookedUp(s, k)
    requires forall t :: t in s'.tasks && KeyOf(t.job) == k ==> t in s.tasks || !t.Driving?
    requires forall c :: c in s'.calls && KeyOf(c.job) == k
                         ==> c in s.calls || c.SendJob? || (c.ReadQueue? && InitialStatus(s.env.proverType).None?)
    ensures !Exposed(s', k)
  {
    assert LookedUp(s', k) ==> LookedUp(s, k);
    assert Exposure.BeingProved(s', k) ==> Exposure.BeingProved(s, k);
    assert LookedUp(s', k) ==> !GoesOn(s', k);
  }

  lemma CarriedCall(s: State, i: nat, k: Key)
    requires Inv(s) && !Exposed(s, k) && i < |s.calls|
    ensures !Exposed(Advanced(s, i), k)
  {
    var c := s.calls[i];
    assert c in s.calls && CallTyped(c);
    assert k in s.finished ==> FinishedStatus(s.finished[k]);
    KeptAway(s, Advanced(s, i), k);
  }

  lemma CarriedTask(s: State, i: nat, k: Key)
    requires !Exposed(s, k) && i < |s.tasks|
    ensures s.tasks[i].Spawned? ==> !Exposed(Began(s, i), k)
    ensures s.tasks[i].Resending? ==> !Exposed(Resent(s, i), k)
  {
    if s.tasks[i].Spawned? {
      KeptAway(s, Began(s, i), k);
    } else if s.tasks[i].Resending? {
      KeptAway(s, Resent(s, i), k);
    }
  }

  lemma CarriedCommit(s: State, i: nat, o: Outcome, k: Key)
    requires !Exposed(s, k) && CanCommit(s, i, o)
    ensures !Exposed(Committed(s, i, o), k)
  {
    assert s.tasks[i] in s.tasks;
    KeptAway(s, Committed(s, i, o), k);
  }

  lemma CarriedStep(s: State, e: Event, k: Key)
    requires Inv(s) && !Exposed(s, k) && Enabled(s, e) && !e.Arrive?
    ensures !Exposed(Apply(s, e), k)
  {
    match e
    case Advance(i) => CarriedCall(s, i, k);
    case Begin(i) => CarriedTask(s, i, k);
    case Resend(i) => CarriedTask(s, i, k);
    case Commit(i, o) => CarriedCommit(s, i, o, k);
    case Boot(order) => BootIff(s, order);
    case Receive | Shutdown | Crash => KeptAway(s, Apply(s, e), k);
    case Arrive(_) =>
  }

  lemma {:induction false} NeverQueued(s: State, es: seq<Event>, k: Key)
    requires Inv(s) && !Exposed(s, k) && Runs(s, es) && forall e :: e in es ==> !e.Arrive?
    ensures k !in After(s, es).queue
    decreases |es|
  {
    if es != [] {
      CarriedStep(s, es[0], k);
      InvStep(s, es[0]);
      NeverQueued(Apply(s, es[0]), es[1..], k);
    }
  }

  // ----- And if it may, it can be lost -----

  predicate Stopping(s: State) {
    s.up && exists m :: m in s.channel && m.None?
  }

  /** The worker reads on to the stop message before anything else moves. */
  lemma QueuedLoses(s: State, k: Key) returns (es: seq<Event>)
    requires Inv(s) && Stopping(s) && k in s.queue
    ensures EndsLosing(s, es, k)
  {
    es := Runner.Receives(Runner.ReceiveCount(s.channel));
    Runner.StopEnds(s);
    Runner.ReceiveAllIsRun(s);
    forall fs | Runs(Exited(s), fs) ensures After(Exited(s), fs) == Exited(s) {
      ExitWithWorkIsFinal(Exited(s), fs);
    }
  }

  lemma LosingLater(s: State, e: Event, es: seq<Event>, k: Key)
    requires Enabled(s, e) && Drain.Internal(e) && EndsLosing(Apply(s, e), es, k)
    ensures EndsLosing(s, [e] + es, k)
  {
    Extend(s, e, es);
  }

  /** One step queues the key. */
  lemma QueuesLoses(s: State, e: Event, k: Key) returns (es: seq<Event>)
    requires Inv(s) && Stopping(s) && Enabled(s, e) && Drain.Internal(e)
    requires k in Apply(s, e).queue && Stopping(Apply(s, e))
    ensures EndsLosing(s, es, k)
  {
    InvStep(s, e);
    var rest := QueuedLoses(Apply(s, e), k);
    LosingLater(s, e, rest, k);
    es := [e] + rest;
  }

  lemma InsertedEndsLost(s: State, k: Key) returns (es: seq<Event>)
    requires Inv(s) && Stopping(s) && Exposure.AboutToInsert(s, k)
    ensures EndsLosing(s, es, k)
  {
    var c :| c in s.calls && KeyOf(c.job) == k && Exposure.WillInsert(s, c);
    var i :| 0 <= i < |s.calls| && s.calls[i] == c;
    if c.InsertQueue? {
      es := QueuesLoses(s, Advance(i), k);
    } else {
      var s' := Apply(s, Advance(i));
      InvStep(s, Advance(i));
      assert s'.calls[i].InsertQueue?;
      var rest := QueuesLoses(s', Advance(i), k);
      LosingLater(s, Advance(i), rest, k);
      es := [Advance(i)] + rest;
    }
  }

  lemma MovedEndsLost(s: State, k: Key) returns (es: seq<Event>)
    requires Inv(s) && Stopping(s) && Exposure.AboutToMove(s, k)
    ensures EndsLosing(s, es, k)
  {
    var c :| c in s.calls && KeyOf(c.job) == k && c.MoveForRetry?;
    var i :| 0 <= i < |s.calls| && s.calls[i] == c;
    es := QueuesLoses(s, Advance(i), k);
  }

  lemma AskedLoses(s: State, k: Key) returns (es: seq<Event>)
    requires Inv(s) && Stopping(s) && BeingAsked(s, k)
    ensures EndsLosing(s, es, k)
  {
    var t :| t in s.tasks && KeyOf(t.job) == k && t.Driving? && t.status.RemoteZkProofRequesting?;
    var i :| 0 <= i < |s.tasks| && s.tasks[i] == t;
    var id := FreshId(s);
    es := QueuesLoses(s, Commit(i, Submitted(id)), k);
  }

  lemma LookedUpLoses(s: State, k: Key) returns (es: seq<Event>)
    requires Inv(s) && Stopping(s) && LookedUp(s, k) && GoesOn(s, k)
    ensures EndsLosing(s, es, k)
  {
    var c :| c in s.calls && KeyOf(c.job) == k && c.ReadFinished?;
    var i :| 0 <= i < |s.calls| && s.calls[i] == c;
    var s' := Apply(s, Advance(i));
    InvStep(s, Advance(i));
    assert s'.calls[i] in s'.calls && KeyOf(s'.calls[i].job) == k;
    var rest;
    if k in s.finished {
      rest := MovedEndsLost(s', k);
    } else {
      assert Exposure.WillInsert(s', s'.calls[i]);
      rest := InsertedEndsLost(s', k);
    }
    LosingLater(s, Advance(i), rest, k);
    es := [Advance(i)] + rest;
  }

  /** The key's prover fails, and a call that looks it up after that retries it. */
  lemma FailedLoses(s: State, k: Key) returns (es: seq<Event>)
    requires Inv(s) && Stopping(s) && LookedUp(s, k) && Exposure.BeingProved(s, k)
    ensures EndsLosing(s, es, k)
  {
    var t :| t in s.tasks && KeyOf(t.job) == k && t.Driving?;
    var i :| 0 <= i < |s.tasks| && s.tasks[i] == t;
    var e := Commit(i, NetErr(RpcError));
    InvStep(s, e);
    var rest := LookedUpLoses(Apply(s, e), k);
    LosingLater(s, e, rest, k);
    es := [e] + rest;
  }

  lemma ExposedLoses(s: State, k: Key) returns (es: seq<Event>)
    requires Inv(s) && Stopping(s) && Exposed(s, k)
    ensures EndsLosing(s, es, k)
  {
    if k in s.queue {
      es := QueuedLoses(s, k);
    } else if Exposure.AboutToInsert(s, k) {
      es := InsertedEndsLost(s, k);
    } else if Exposure.AboutToMove(s, k) {
      es := MovedEndsLost(s, k);
    } else if BeingAsked(s, k) {
      es := AskedLoses(s, k);
    } else if GoesOn(s, k) {
      es := LookedUpLoses(s, k);
    } else {
      es := FailedLoses(s, k);
    }
  }

  /** A serving process can still change, so nothing in it is lost. */
  lemma ServingLosesNothing(s: State, k: Key)
    requires s.up
    ensures !Lost(s, k)
  {
    Extend(s, Crash, []);
    assert [Crash] + [] == [Crash];
    assert !After(s, [Crash]).up;
  }

  /** Without stop message the engine's own steps keep the process serving: they lose nothing. */
  lemma NoStopNoLoss(s: State, es: seq<Event>, k: Key)
    requires s.up && !Stopping(s)
    ensures !EndsLosing(s, es, k)
  {
    if Runs(s, es) && forall e :: e in es ==> Drain.Internal(e) {
      Healing.NoStopAlways(s, es);
      ServingLosesNothing(After(s, es), k);
    }
  }

  /**
   The engine's own steps can lose a job of a serving process for good exactly if a stop
   message is under way and the job's key is exposed.
   */
  lemma LostIff(s: State, k: Key)
    requires Inv(s) && s.up
    ensures (exists es :: EndsLosing(s, es, k)) <==> Stopping(s) && Exposed(s, k)
  {
    if Stopping(s) && Exposed(s, k) {
      var es := ExposedLoses(s, k);
    }
    forall es | EndsLosing(s, es, k) ensures Stopping(s) && Exposed(s, k) {
      if !Stopping(s) {
        NoStopNoLoss(s, es, k);
      } else if !Exposed(s, k) {
        assert forall e :: e in es ==> Drain.Internal(e) && !e.Arrive?;
        NeverQueued(s, es, k);
      }
    }
  }

  /**
   A shutdown does not finish the jobs at hand, contrary to what it logs: by its own
   steps, without crash or abandoned prover call, the engine can lose a key's job for
   good, over all restarts, exactly if the key was queued, or could still be queued by a
   call or task at hand, when the stop message was sent; without calls in progress,
   exactly if it was queued. Had no message been under way or sent, it could lose nothing.
   */
  lemma AbandonsWork(s: State, k: Key)
    requires Inv(s) && s.up
    ensures Exposed(s, k) <==> exists es :: EndsLosing(Sent(s, None), es, k)
    ensures UniqueDriver.Solo(s) ==> (k in s.queue <==> exists es :: EndsLosing(Sent(s, None), es, k))
    ensures Healing.NoStop(s) ==> !exists es :: EndsLosing(s, es, k)
  {
    var stopped := Sent(s, None);
    assert stopped.channel[|s.channel|] in stopped.channel;
    LostIff(stopped, k);
    LostIff(s, k);
    assert Exposed(stopped, k) <==> Exposed(s, k);
    if UniqueDriver.Solo(s) && k !in s.queue {
      UniqueDriver.NoDriverNoTask(s, k);
    }
  }
}
