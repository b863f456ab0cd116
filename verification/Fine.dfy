/**
 The fine machine: every read, insert, transaction and send of every client call and
 task is a step of its own, so calls and tasks interleave as they can on a runtime
 with several threads. What is proved here holds in the worst case.
 */
module Fine {
  import opened Jobs
  import opened Sums
  import opened Engine
  import Bincode
  import Recovery

  datatype Event =
    | Arrive(job: Job)
    | Advance(call: nat)
    | Receive
    | Begin(task: nat)
    | Commit(task: nat, outcome: Outcome)
    | Resend(task: nat)
    | Shutdown
    | Crash
    | Boot(order: seq<Key>)

  ghost predicate Enabled(s: State, e: Event) {
    match e
    case Boot(order) => !s.up && Enumerates(order, s.queue)
    case _ => s.up && EnabledUp(s, e)
  }

  predicate EnabledUp(s: State, e: Event) {
    match e
    case Arrive(_) | Shutdown | Crash => true
    case Advance(i) => i < |s.calls|
    case Receive => s.channel != []
    case Begin(i) => i < |s.tasks| && s.tasks[i].Spawned?
    case Commit(i, o) => CanCommit(s, i, o)
    case Resend(i) => i < |s.tasks| && s.tasks[i].Resending?
    case Boot(_) => false
  }

  /** What a call does after its present access: another one, or it is answered. */
  datatype Then = Goes(call: Call) | Answers(answer: Answer)

  function Next(s: State, c: Call): Then {
    match c
    case ReadFinished(job) =>
      (match Lookup(s.finished, KeyOf(job))
       case None => Goes(ReadQueue(job))
       case Some(ZkProofFinished(p)) => Answers(HaveProof(p))
       case Some(Failed(e, None)) => Answers(PermanentFailure(e))
       case Some(Failed(e, Some(st))) => Goes(MoveForRetry(job, st, e))
       case Some(_) => Answers(FinishedInvalid))
    case ReadQueue(job) =>
      (match Lookup(s.queue, KeyOf(job))
       case Some(st) => Answers(if InProgress(st) then NotYet else QueueInvalid)
       case None =>
         match InitialStatus(s.env.proverType)
         case None => Answers(UnknownProver)
         case Some(st) => Goes(InsertQueue(job, st)))
    case InsertQueue(job, _) => Goes(SendJob(job, NotYet))
    case MoveForRetry(job, _, e) => Goes(SendJob(job, Retrying(e)))
    case SendJob(_, a) => Answers(a)
  }

  /** What a call's present access does to the trees and the channel. */
  function Effect(s: State, c: Call): State {
    match c
    case ReadFinished(_) | ReadQueue(_) => s
    case InsertQueue(job, st) => s.(queue := s.queue[KeyOf(job) := st])
    case MoveForRetry(job, st, _) => MoveToQueue(s, KeyOf(job), st)
    case SendJob(job, _) => Sent(s, Some(job))
  }

  function Advanced(s: State, i: nat): State
    requires i < |s.calls|
  {
    var c := s.calls[i];
    Effect(s, c).(calls := match Next(s, c)
                           case Goes(c') => s.calls[i := c']
                           case Answers(_) => Without(s.calls, i))
  }

  function Arrived(s: State, job: Job): State {
    s.(calls := s.calls + [ReadFinished(job)], submitted := s.submitted + {job.input.data})
  }

  ghost function Apply(s: State, e: Event): State
    requires Enabled(s, e)
  {
    match e
    case Arrive(job) => Arrived(s, job)
    case Advance(i) => Advanced(s, i)
    case Receive => Received(s)
    case Begin(i) => Began(s, i)
    case Commit(i, o) => Committed(s, i, o)
    case Resend(i) => Resent(s, i)
    case Shutdown => Sent(s, None)
    case Crash => Exited(s)
    case Boot(order) => Booted(s, order)
  }

  // ----- Runs -----

  ghost predicate Runs(s: State, es: seq<Event>)
    decreases |es|
  {
    es == [] || (Enabled(s, es[0]) && Runs(Apply(s, es[0]), es[1..]))
  }

  ghost function After(s: State, es: seq<Event>): State
    requires Runs(s, es)
    decreases |es|
  {
    if es == [] then s else After(Apply(s, es[0]), es[1..])
  }

  lemma Extend(s: State, e: Event, es: seq<Event>)
    requires Enabled(s, e) && Runs(Apply(s, e), es)
    ensures Runs(s, [e] + es) && After(s, [e] + es) == After(Apply(s, e), es)
  {
    assert ([e] + es)[1..] == es;
  }

  lemma {:induction false} RunsConcat(s: State, es: seq<Event>, fs: seq<Event>)
    requires Runs(s, es) && Runs(After(s, es), fs)
    ensures Runs(s, es + fs) && After(s, es + fs) == After(After(s, es), fs)
    decreases |es|
  {
    if es == [] {
      assert es + fs == fs;
    } else {
      RunsConcat(Apply(s, es[0]), es[1..], fs);
      assert (es + fs)[1..] == es[1..] + fs;
    }
  }

  // ----- Structure: what the trees may hold, in every run -----

  /** The failures a tree may hold: final ones, and those retried as a remote request. */
  predicate FinishedStatus(st: JobStatus) {
    st.ZkProofFinished? || (st.Failed? && (st.retry == None || st.retry == Some(RemoteZkProofRequesting)))
  }

  predicate TaskTyped(t: Task) {
    t.Driving? ==> InProgress(t.status)
  }

  predicate CallTyped(c: Call) {
    && (c.InsertQueue? ==> c.status.LocalZkProofPending? || c.status.RemoteZkProofRequesting?)
    && (c.MoveForRetry? ==> c.status == RemoteZkProofRequesting)
    && (c.SendJob? ==> c.answer == NotYet || c.answer.Retrying?)
  }

  ghost predicate Typed(s: State) {
    && (forall k :: k in s.queue ==> InProgress(s.queue[k]))
    && (forall k :: k in s.finished ==> FinishedStatus(s.finished[k]))
    && (forall t :: t in s.tasks ==> TaskTyped(t))
    && (forall c :: c in s.calls ==> CallTyped(c))
  }

  ghost predicate IsTreeKey(k: Key) {
    exists a: Anchor :: k == Bincode.EncodeAnchor(a)
  }

  ghost predicate Keyed(s: State) {
    forall k :: k in s.queue ==> IsTreeKey(k)
  }

  ghost predicate Gone(s: State) {
    s.channel == [] && s.tasks == [] && s.calls == []
  }

  ghost predicate Inv(s: State) {
    && Typed(s)
    && Keyed(s)
    && (!s.up ==> Gone(s))
  }

  lemma EmptyOrder(order: seq<Key>, t: Tree)
    requires Enumerates(order, t)
    ensures order == [] <==> t == map[]
  {
    if order != [] {
      assert order[0] in t;
    }
    if t != map[] {
      var k :| k in t;
      assert k in order;
    }
  }

  /** A start succeeds exactly on an empty queue, and then with nothing to do. */
  lemma BootIff(s: State, order: seq<Key>)
    requires Keyed(s) && Enumerates(order, s.queue)
    ensures s.queue == map[] ==> Booted(s, order) == s.(up := true, channel := [])
    ensures s.queue != map[] ==> Booted(s, order) == s
  {
    var entries := Entries(order, s.queue);
    forall e | e in entries ensures exists a: Anchor :: e.key == Bincode.EncodeAnchor(a) {
      assert e.key in order;
      assert IsTreeKey(e.key);
    }
    Recovery.OnlyEmptyQueueRestarts(entries);
    EmptyOrder(order, s.queue);
  }

  lemma NextTyped(s: State, c: Call)
    requires Typed(s) && CallTyped(c)
    ensures Next(s, c).Goes? ==> CallTyped(Next(s, c).call)
    ensures Next(s, c) != Answers(FinishedInvalid) && Next(s, c) != Answers(QueueInvalid)
  {
    var k := KeyOf(c.job);
    assert k in s.finished ==> FinishedStatus(s.finished[k]);
  }

  lemma TypedAdvance(s: State, i: nat)
    requires Typed(s) && i < |s.calls|
    ensures Typed(Advanced(s, i))
  {
    var c := s.calls[i];
    assert CallTyped(c);
    NextTyped(s, c);
    assert Typed(Effect(s, c));
  }

  lemma TypedCommit(s: State, i: nat, o: Outcome)
    requires Typed(s) && CanCommit(s, i, o)
    ensures Typed(Committed(s, i, o))
  {
  }

  lemma TypedStep(s: State, e: Event)
    requires Inv(s) && Enabled(s, e) && !e.Boot?
    ensures Typed(Apply(s, e))
  {
    if e.Advance? {
      TypedAdvance(s, e.call);
    } else if e.Commit? {
      TypedCommit(s, e.task, e.outcome);
    }
  }

  lemma KeyedStep(s: State, e: Event)
    requires Inv(s) && Enabled(s, e) && !e.Boot?
    ensures Keyed(Apply(s, e))
  {
    var s' := Apply(s, e);
    forall k | k in s'.queue ensures IsTreeKey(k) {
      if k !in s.queue {
        var job := if e.Advance? then s.calls[e.call].job else s.tasks[e.task].job;
        assert k == Bincode.EncodeAnchor(job.anchor);
      }
    }
  }

  lemma GoneStep(s: State, e: Event)
    requires Enabled(s, e) && !e.Boot?
    ensures !Apply(s, e).up ==> Gone(Apply(s, e))
  {
  }

  lemma InvStep(s: State, e: Event)
    requires Inv(s) && Enabled(s, e)
    ensures Inv(Apply(s, e))
  {
    if e.Boot? {
      BootIff(s, e.order);
    } else {
      TypedStep(s, e);
      KeyedStep(s, e);
      GoneStep(s, e);
    }
  }

  /**
   Status typing, over every run and across crashes: the queue tree holds only
   statuses in progress, the finished tree only proofs, final failures and failures
   to be retried as a remote request.
   */
  lemma {:induction false} InvAlways(s: State, es: seq<Event>)
    requires Inv(s) && Runs(s, es)
    ensures Inv(After(s, es))
    decreases |es|
  {
    if es != [] {
      InvStep(s, es[0]);
      InvAlways(Apply(s, es[0]), es[1..]);
    }
  }

  /** The three branches that report an invalid tree are never taken. */
  lemma NoInvalidState(env: Env, es: seq<Event>)
    requires Runs(Initial(env), es)
    ensures var s := After(Initial(env), es);
            && (forall c :: c in s.calls ==>
                  Next(s, c) != Answers(FinishedInvalid) && Next(s, c) != Answers(QueueInvalid))
            && (forall t :: t in s.tasks && KeyOf(t.job) in s.queue ==> InProgress(s.queue[KeyOf(t.job)]))
  {
    var s := After(Initial(env), es);
    InvAlways(Initial(env), es);
    forall c | c in s.calls
      ensures Next(s, c) != Answers(FinishedInvalid) && Next(s, c) != Answers(QueueInvalid)
    {
      NextTyped(s, c);
    }
  }

  // ----- Conservation -----

  lemma ConservationStep(s: State, e: Event)
    requires Enabled(s, e)
    ensures Accepted(s) <= Accepted(Apply(s, e))
  {
  }

  /** No step of any run, a crash included, drops an accepted key from both trees. */
  lemma {:induction false} Conservation(s: State, es: seq<Event>)
    requires Runs(s, es)
    ensures Accepted(s) <= Accepted(After(s, es))
    decreases |es|
  {
    if es != [] {
      ConservationStep(s, es[0]);
      Conservation(Apply(s, es[0]), es[1..]);
    }
  }

  // ----- An exit with queued work is final -----

  /** Once the process is gone with anything queued, no run changes anything again. */
  lemma {:induction false} ExitWithWorkIsFinal(s: State, es: seq<Event>)
    requires Inv(s) && !s.up && s.queue != map[] && Runs(s, es)
    ensures After(s, es) == s
    decreases |es|
  {
    if es != [] {
      BootIff(s, es[0].order);
      ExitWithWorkIsFinal(s, es[1..]);
    }
  }
}
