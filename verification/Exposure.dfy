/**
 What the fine machine does not keep, and exactly when: a key gets a second driver by
 one kind of step only, and a finished proof or final failure can be lost from just
 those states in which a call or task is still about to bring its key back to work.
 */
module Exposure {
  import opened Jobs
  import opened Engine
  import opened Fine
  import opened Healing
  import Drain
  import UniqueDriver

  // ----- A second driver -----

  /** The step puts the key into the queue for a call that will then send its job. */
  predicate StartsKey(s: State, e: Event, k: Key) {
    && e.Advance? && e.call < |s.calls|
    && (s.calls[e.call].InsertQueue? || s.calls[e.call].MoveForRetry?)
    && KeyOf(s.calls[e.call].job) == k
  }

  lemma GoneUndriven(s: State, k: Key)
    requires Gone(s)
    ensures Drivers(s, k) == 0
  {
  }

  /** Only a start adds a driver, and it adds one. */
  lemma DriversChange(s: State, e: Event, k: Key)
    requires Inv(s) && Enabled(s, e)
    ensures StartsKey(s, e, k) ==> Drivers(Apply(s, e), k) == Drivers(s, k) + 1
    ensures !StartsKey(s, e, k) ==> Drivers(Apply(s, e), k) <= Drivers(s, k)
  {
    match e
    case Arrive(job) => ArrivedDrivers(s, job, k);
    case Advance(i) => AdvancedDrivers(s, i, k);
    case Receive =>
      if s.channel[0].Some? {
        ReceivedDrivers(s, k);
      } else {
        GoneUndriven(Apply(s, e), k);
      }
    case Begin(i) => BeganDrivers(s, i, k);
    case Commit(i, o) => CommittedDrivers(s, i, o, k);
    case Resend(i) => ResentDrivers(s, i, k);
    case Shutdown => MessageAdded(s, None, k);
    case Crash => GoneUndriven(Apply(s, e), k);
    case Boot(order) => BootIff(s, order);
  }

  /** A key gets a second driver exactly when a call that has read the trees too early starts it beside its first. */
  lemma SecondDriverIff(s: State, e: Event, k: Key)
    requires Inv(s) && Enabled(s, e) && Drivers(s, k) <= 1
    ensures Drivers(Apply(s, e), k) >= 2 <==> Drivers(s, k) == 1 && StartsKey(s, e, k)
  {
    DriversChange(s, e, k);
  }

  /** Some step of the run starts the key while it is driven. */
  ghost predicate StartsDriven(s: State, es: seq<Event>, k: Key)
    requires Runs(s, es)
    decreases |es|
  {
    es != [] && ((Drivers(s, k) > 0 && StartsKey(s, es[0], k)) || StartsDriven(Apply(s, es[0]), es[1..], k))
  }

  ghost predicate OneDriverThroughout(s: State, es: seq<Event>, k: Key)
    requires Runs(s, es)
    decreases |es|
  {
    Drivers(s, k) <= 1 && (es == [] || OneDriverThroughout(Apply(s, es[0]), es[1..], k))
  }

  /** Unique driver over runs: a key is never driven twice exactly if it is never started while driven. */
  lemma {:induction false} OneDriverIff(s: State, es: seq<Event>, k: Key)
    requires Inv(s) && Runs(s, es) && Drivers(s, k) <= 1
    ensures OneDriverThroughout(s, es, k) <==> !StartsDriven(s, es, k)
    decreases |es|
  {
    if es != [] {
      SecondDriverIff(s, es[0], k);
      InvStep(s, es[0]);
      if Drivers(Apply(s, es[0]), k) <= 1 {
        OneDriverIff(Apply(s, es[0]), es[1..], k);
      }
    }
  }

  // ----- Final entries at risk -----

  /** A proof, or a failure that is never retried. */
  predicate FinalStatus(st: JobStatus) {
    st.ZkProofFinished? || (st.Failed? && st.retry.None?)
  }

  predicate HasFinal(s: State, k: Key) {
    k in s.finished && FinalStatus(s.finished[k])
  }

  /** The worker will receive a job for the key before it is told to stop. */
  predicate WillReceive(channel: seq<Message>, k: Key)
    decreases |channel|
  {
    channel != [] && channel[0].Some? && (KeyOf(channel[0].value) == k || WillReceive(channel[1..], k))
  }

  /** Something will read the key's queue entry: a message, a task, or a call or task that sends before any stop. */
  ghost predicate WillBeRead(s: State, k: Key) {
    || WillReceive(s.channel, k)
    || (exists t :: t in s.tasks && KeyOf(t.job) == k && (t.Spawned? || (t.Resending? && NoStop(s))))
    || (exists c :: c in s.calls && KeyOf(c.job) == k && c.SendJob? && NoStop(s))
  }

  /** A call has found the key in neither tree and will insert it, or not in the finished tree and would go on to. */
  ghost predicate AboutToInsert(s: State, k: Key) {
    exists c :: c in s.calls && KeyOf(c.job) == k && WillInsert(s, c)
  }

  predicate WillInsert(s: State, c: Call) {
    c.InsertQueue? || (c.ReadQueue? && KeyOf(c.job) !in s.queue && InitialStatus(s.env.proverType).Some?)
  }

  /** A call has found a retryable failure under the key and will move it to the queue. */
  ghost predicate AboutToMove(s: State, k: Key) {
    exists c :: c in s.calls && KeyOf(c.job) == k && c.MoveForRetry?
  }

  /** A task waits for its prover and will commit the key to whatever comes of it. */
  ghost predicate BeingProved(s: State, k: Key) {
    exists t :: t in s.tasks && KeyOf(t.job) == k && t.Driving?
  }

  /**
   What a final entry of the key has to fear: a prover call or a retry on its way to a
   transaction, an entry in the queue that will be read, or an insert of one.
   */
  ghost predicate AtRisk(s: State, k: Key) {
    || BeingProved(s, k)
    || AboutToMove(s, k)
    || (k in s.queue && WillBeRead(s, k))
    || (AboutToInsert(s, k) && (WillBeRead(s, k) || NoStop(s)))
  }

  lemma {:induction false} WillReceiveAppend(channel: seq<Message>, m: Message, k: Key)
    ensures WillReceive(channel + [m], k)
       <==> WillReceive(channel, k) || ((forall n :: n in channel ==> n.Some?) && m.Some? && KeyOf(m.value) == k)
    decreases |channel|
  {
    var channel' := channel + [m];
    if channel == [] {
      assert channel' == [m] && channel'[1..] == [];
    } else {
      assert channel'[0] == channel[0] && channel'[1..] == channel[1..] + [m];
      WillReceiveAppend(channel[1..], m, k);
      assert forall n :: n in channel <==> n == channel[0] || n in channel[1..];
    }
  }

  // ----- Safety: without risk the entry stays -----

  /** The entry is as it was, and at no risk. */
  ghost predicate Keeps(s: State, s': State, k: Key) {
    Lookup(s'.finished, k) == Lookup(s.finished, k) && !AtRisk(s', k)
  }

  /** A step that leaves the key's entries alone and brings nothing new to bear on the key. */
  lemma Carried(s: State, s': State, k: Key)
    requires !AtRisk(s, k) && s'.env == s.env
    requires Lookup(s'.finished, k) == Lookup(s.finished, k) && (k in s'.queue <==> k in s.queue)
    requires (NoStop(s') ==> NoStop(s)) && (WillReceive(s'.channel, k) ==> WillBeRead(s, k))
    requires forall t :: t in s'.tasks && KeyOf(t.job) == k ==> t in s.tasks || (t.Spawned? && WillBeRead(s, k))
    requires forall c :: c in s'.calls && KeyOf(c.job) == k
                         ==> c in s.calls || c.ReadFinished? || (c.InsertQueue? && AboutToInsert(s, k))
    ensures Keeps(s, s', k)
  {
    assert WillBeRead(s', k) ==> WillBeRead(s, k);
    assert AboutToInsert(s', k) ==> AboutToInsert(s, k);
  }

  /** The plain insert, behind a stop message and with nothing to read it. */
  lemma SafeInsert(s: State, i: nat, k: Key)
    requires !AtRisk(s, k) && i < |s.calls| && s.calls[i].InsertQueue? && KeyOf(s.calls[i].job) == k
    ensures Keeps(s, Advanced(s, i), k)
  {
    var s' := Advanced(s, i);
    assert s.calls[i] in s.calls && WillInsert(s, s.calls[i]);
    assert forall c :: c in s'.calls ==> c in s.calls || c.SendJob?;
    assert WillBeRead(s', k) ==> WillBeRead(s, k);
  }

  lemma SafeSend(s: State, i: nat, k: Key)
    requires !AtRisk(s, k) && i < |s.calls| && s.calls[i].SendJob?
    ensures Keeps(s, Advanced(s, i), k)
  {
    var c := s.calls[i];
    assert c in s.calls;
    WillReceiveAppend(s.channel, Some(c.job), k);
    Carried(s, Advanced(s, i), k);
  }

  lemma SafeRead(s: State, i: nat, k: Key)
    requires HasFinal(s, k) && !AtRisk(s, k) && i < |s.calls|
    requires s.calls[i].ReadFinished? || s.calls[i].ReadQueue?
    ensures Keeps(s, Advanced(s, i), k)
  {
    var c := s.calls[i];
    assert c in s.calls;
    Carried(s, Advanced(s, i), k);
  }

  lemma SafeOther(s: State, i: nat, k: Key)
    requires !AtRisk(s, k) && i < |s.calls| && KeyOf(s.calls[i].job) != k
    requires s.calls[i].InsertQueue? || s.calls[i].MoveForRetry?
    ensures Keeps(s, Advanced(s, i), k)
  {
    Carried(s, Advanced(s, i), k);
  }

  lemma SafeCall(s: State, i: nat, k: Key)
    requires HasFinal(s, k) && !AtRisk(s, k) && i < |s.calls|
    ensures Keeps(s, Advanced(s, i), k)
  {
    var c := s.calls[i];
    assert c in s.calls;
    if c.SendJob? {
      SafeSend(s, i, k);
    } else if c.ReadFinished? || c.ReadQueue? {
      SafeRead(s, i, k);
    } else if KeyOf(c.job) != k {
      SafeOther(s, i, k);
    } else {
      SafeInsert(s, i, k);
    }
  }

  lemma SafeReceive(s: State, k: Key)
    requires !AtRisk(s, k) && s.channel != []
    ensures Keeps(s, Received(s), k)
  {
    if s.channel[0].Some? {
      assert NoStop(Received(s)) ==> NoStop(s);
      Carried(s, Received(s), k);
    }
  }

  lemma SafeCommit(s: State, i: nat, o: Outcome, k: Key)
    requires !AtRisk(s, k) && CanCommit(s, i, o)
    ensures Keeps(s, Committed(s, i, o), k)
  {
    assert s.tasks[i] in s.tasks;
    Carried(s, Committed(s, i, o), k);
  }

  lemma SafeBegin(s: State, i: nat, k: Key)
    requires !AtRisk(s, k) && i < |s.tasks| && s.tasks[i].Spawned?
    ensures Keeps(s, Began(s, i), k)
  {
    assert s.tasks[i] in s.tasks;
    Carried(s, Began(s, i), k);
  }

  lemma SafeResend(s: State, i: nat, k: Key)
    requires !AtRisk(s, k) && i < |s.tasks| && s.tasks[i].Resending?
    ensures Keeps(s, Resent(s, i), k)
  {
    assert s.tasks[i] in s.tasks;
    WillReceiveAppend(s.channel, Some(s.tasks[i].job), k);
    Carried(s, Resent(s, i), k);
  }

  lemma SafeStep(s: State, e: Event, k: Key)
    requires Inv(s) && HasFinal(s, k) && !AtRisk(s, k) && Enabled(s, e)
    ensures Keeps(s, Apply(s, e), k)
  {
    match e
    case Arrive(_) => Carried(s, Apply(s, e), k);
    case Advance(i) => SafeCall(s, i, k);
    case Receive => SafeReceive(s, k);
    case Begin(i) => SafeBegin(s, i, k);
    case Commit(i, o) => SafeCommit(s, i, o, k);
    case Resend(i) => SafeResend(s, i, k);
    case Shutdown =>
      WillReceiveAppend(s.channel, None, k);
      Carried(s, Apply(s, e), k);
    case Crash =>
    case Boot(order) => BootIff(s, order);
  }

  /** A final entry at no risk is there, unchanged, after every fine run, crashes and restarts included. */
  lemma {:induction false} SafeForever(s: State, es: seq<Event>, k: Key)
    requires Inv(s) && HasFinal(s, k) && !AtRisk(s, k) && Runs(s, es)
    ensures Keeps(s, After(s, es), k)
    decreases |es|
  {
    if es != [] {
      SafeStep(s, es[0], k);
      InvStep(s, es[0]);
      SafeForever(Apply(s, es[0]), es[1..], k);
    }
  }

  // ----- Danger: at risk, the engine's own steps lose the entry -----

  /** The run consists of the engine's own steps, no prover call abandoned, and the key's entry is not what it was. */
  ghost predicate Loses(s: State, es: seq<Event>, k: Key) {
    && Runs(s, es)
    && (forall e :: e in es ==> Drain.Internal(e))
    && Lookup(After(s, es).finished, k) != Lookup(s.finished, k)
  }

  /** A step that leaves the entry alone, before a run that loses it. */
  lemma LosesLater(s: State, e: Event, es: seq<Event>, k: Key)
    requires Enabled(s, e) && Drain.Internal(e) && Lookup(Apply(s, e).finished, k) == Lookup(s.finished, k)
    requires Loses(Apply(s, e), es, k)
    ensures Loses(s, [e] + es, k)
  {
    Extend(s, e, es);
  }

  lemma LosesNow(s: State, e: Event, k: Key)
    requires Enabled(s, e) && Drain.Internal(e) && Lookup(Apply(s, e).finished, k) != Lookup(s.finished, k)
    ensures Loses(s, [e], k)
  {
    Extend(s, e, []);
    assert [e] + [] == [e];
  }

  lemma DrivenLoses(s: State, k: Key) returns (es: seq<Event>)
    requires Inv(s) && HasFinal(s, k) && BeingProved(s, k)
    ensures Loses(s, es, k)
  {
    var t :| t in s.tasks && KeyOf(t.job) == k && t.Driving?;
    var i :| 0 <= i < |s.tasks| && s.tasks[i] == t;
    es := [Commit(i, NetErr(RpcError))];
    LosesNow(s, es[0], k);
  }

  lemma MovedLoses(s: State, k: Key) returns (es: seq<Event>)
    requires Inv(s) && HasFinal(s, k) && AboutToMove(s, k)
    ensures Loses(s, es, k)
  {
    var c :| c in s.calls && KeyOf(c.job) == k && c.MoveForRetry?;
    var i :| 0 <= i < |s.calls| && s.calls[i] == c;
    es := [Advance(i)];
    LosesNow(s, es[0], k);
  }

  lemma SpawnedLoses(s: State, i: nat, k: Key) returns (es: seq<Event>)
    requires Inv(s) && HasFinal(s, k) && k in s.queue
    requires i < |s.tasks| && s.tasks[i].Spawned? && KeyOf(s.tasks[i].job) == k
    ensures Loses(s, es, k)
  {
    var e := Begin(i);
    var s' := Apply(s, e);
    InvStep(s, e);
    assert s'.tasks[i] in s'.tasks;
    es := DrivenLoses(s', k);
    LosesLater(s, e, es, k);
    es := [e] + es;
  }

  lemma MessageLoses(s: State, k: Key) returns (es: seq<Event>)
    requires Inv(s) && HasFinal(s, k) && k in s.queue && WillReceive(s.channel, k)
    ensures Loses(s, es, k)
    decreases |s.channel|
  {
    var s' := Received(s);
    InvStep(s, Receive);
    if KeyOf(s.channel[0].value) == k {
      es := SpawnedLoses(s', |s.tasks|, k);
    } else {
      es := MessageLoses(s', k);
    }
    LosesLater(s, Receive, es, k);
    es := [Receive] + es;
  }

  lemma SentLoses(s: State, e: Event, job: Job, k: Key) returns (es: seq<Event>)
    requires Inv(s) && HasFinal(s, k) && k in s.queue && NoStop(s) && KeyOf(job) == k
    requires Enabled(s, e) && (e.Advance? || e.Resend?) && Drain.Internal(e)
    requires var s' := Apply(s, e);
             s'.channel == s.channel + [Some(job)] && s'.queue == s.queue && s'.finished == s.finished
    ensures Loses(s, es, k)
  {
    InvStep(s, e);
    WillReceiveAppend(s.channel, Some(job), k);
    es := MessageLoses(Apply(s, e), k);
    LosesLater(s, e, es, k);
    es := [e] + es;
  }

  lemma ReadLoses(s: State, k: Key) returns (es: seq<Event>)
    requires Inv(s) && HasFinal(s, k) && k in s.queue && WillBeRead(s, k)
    ensures Loses(s, es, k)
  {
    if WillReceive(s.channel, k) {
      es := MessageLoses(s, k);
    } else if t :| t in s.tasks && KeyOf(t.job) == k && (t.Spawned? || (t.Resending? && NoStop(s))) {
      var i :| 0 <= i < |s.tasks| && s.tasks[i] == t;
      if t.Spawned? {
        es := SpawnedLoses(s, i, k);
      } else {
        es := SentLoses(s, Resend(i), t.job, k);
      }
    } else {
      var c :| c in s.calls && KeyOf(c.job) == k && c.SendJob? && NoStop(s);
      var i :| 0 <= i < |s.calls| && s.calls[i] == c;
      es := SentLoses(s, Advance(i), c.job, k);
    }
  }

  /** A call's step keeps whatever will read the key, if the call itself is not it. */
  lemma StillRead(s: State, i: nat, k: Key)
    requires i < |s.calls| && (s.calls[i].ReadQueue? || s.calls[i].InsertQueue?)
    ensures NoStop(Advanced(s, i)) <==> NoStop(s)
    ensures WillBeRead(s, k) ==> WillBeRead(Advanced(s, i), k)
  {
    var s' := Advanced(s, i);
    if c :| c in s.calls && KeyOf(c.job) == k && c.SendJob? && NoStop(s) {
      var j :| 0 <= j < |s.calls| && s.calls[j] == c;
      assert c in s'.calls by {
        assert s'.calls[if |s'.calls| < |s.calls| && i < j then j - 1 else j] == c;
      }
    }
  }

  lemma InsertLoses(s: State, i: nat, k: Key) returns (es: seq<Event>)
    requires Inv(s) && HasFinal(s, k) && (WillBeRead(s, k) || NoStop(s))
    requires i < |s.calls| && s.calls[i].InsertQueue? && KeyOf(s.calls[i].job) == k
    ensures Loses(s, es, k)
  {
    var e := Advance(i);
    var s' := Apply(s, e);
    InvStep(s, e);
    StillRead(s, i, k);
    assert s'.calls[i] in s'.calls && s'.calls[i].SendJob?;
    es := ReadLoses(s', k);
    LosesLater(s, e, es, k);
    es := [e] + es;
  }

  lemma InsertedLoses(s: State, k: Key) returns (es: seq<Event>)
    requires Inv(s) && HasFinal(s, k) && AboutToInsert(s, k) && (WillBeRead(s, k) || NoStop(s))
    ensures Loses(s, es, k)
  {
    var c :| c in s.calls && KeyOf(c.job) == k && WillInsert(s, c);
    var i :| 0 <= i < |s.calls| && s.calls[i] == c;
    if c.InsertQueue? {
      es := InsertLoses(s, i, k);
    } else {
      var e := Advance(i);
      InvStep(s, e);
      StillRead(s, i, k);
      es := InsertLoses(Apply(s, e), i, k);
      LosesLater(s, e, es, k);
      es := [e] + es;
    }
  }

  lemma RiskLoses(s: State, k: Key) returns (es: seq<Event>)
    requires Inv(s) && HasFinal(s, k) && AtRisk(s, k)
    ensures Loses(s, es, k)
  {
    if BeingProved(s, k) {
      es := DrivenLoses(s, k);
    } else if AboutToMove(s, k) {
      es := MovedLoses(s, k);
    } else if k in s.queue && WillBeRead(s, k) {
      es := ReadLoses(s, k);
    } else {
      es := InsertedLoses(s, k);
    }
  }

  /**
   Permanence with fine steps, exactly: some run of any steps changes a final entry if
   and only if the entry is at risk, and then the engine's own steps suffice.
   */
  lemma FinalEntryLostIff(s: State, k: Key)
    requires Inv(s) && HasFinal(s, k)
    ensures AtRisk(s, k) <==> exists es :: Runs(s, es) && Lookup(After(s, es).finished, k) != Lookup(s.finished, k)
    ensures AtRisk(s, k) <==> exists es :: Loses(s, es, k)
  {
    if AtRisk(s, k) {
      var es := RiskLoses(s, k);
      assert Runs(s, es) && Lookup(After(s, es).finished, k) != Lookup(s.finished, k);
    } else {
      forall es | Runs(s, es) ensures Lookup(After(s, es).finished, k) == Lookup(s.finished, k) {
        SafeForever(s, es, k);
      }
    }
  }

  /**
   A final entry reached by request-atomic steps is at no risk: whatever calls come
   later, on however many threads, it is permanent.
   */
  lemma AtRestNoRisk(s: State, es: seq<Event>, k: Key)
    requires UniqueDriver.Solo(s) && Inv(s) && HasFinal(s, k) && Runs(s, es)
    ensures !AtRisk(s, k) && Lookup(After(s, es).finished, k) == Some(s.finished[k])
  {
    UniqueDriver.NoDriverNoTask(s, k);
    SafeForever(s, es, k);
  }
}
