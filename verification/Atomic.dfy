/**
 The request-atomic machine: one call of get_verifiable_encryption is one step, and
 so is a task's work between two suspension points. It contains no .await between
 its first read and its answer, so a runtime with one thread never splits it. Every
 step is a run of the fine machine, which is how what holds there is carried over.
 */
module Atomic {
  import opened Jobs
  import opened Engine
  import Fine

  datatype Event =
    | Request(job: Job)
    | Receive
    | Begin(task: nat)
    | Finish(task: nat, outcome: Outcome)
    | Shutdown
    | Crash
    | Boot(order: seq<Key>)

  ghost predicate Enabled(s: State, e: Event) {
    match e
    case Boot(order) => !s.up && Enumerates(order, s.queue)
    case _ => s.up && EnabledUp(s, e)
  }

  predicate EnabledUp(s: State, e: Event) {
    match e
    case Request(_) | Shutdown | Crash => true
    case Receive => s.channel != []
    case Begin(i) => i < |s.tasks| && s.tasks[i].Spawned?
    case Finish(i, o) => CanCommit(s, i, o)
    case Boot(_) => false
  }

  /** The answer to a request, read off the finished tree first and the queue second. */
  function AnswerTo(s: State, job: Job): Answer {
    match Lookup(s.finished, KeyOf(job))
    case Some(ZkProofFinished(p)) => HaveProof(p)
    case Some(Failed(e, None)) => PermanentFailure(e)
    case Some(Failed(e, Some(_))) => Retrying(e)
    case Some(_) => FinishedInvalid
    case None =>
      match Lookup(s.queue, KeyOf(job))
      case Some(st) => if InProgress(st) then NotYet else QueueInvalid
      case None => if InitialStatus(s.env.proverType).Some? then NotYet else UnknownProver
  }

  /** The status a request puts its key into the queue with, if it does. */
  function Starts(s: State, job: Job): Option<JobStatus> {
    match Lookup(s.finished, KeyOf(job))
    case Some(Failed(_, Some(st))) => Some(st)
    case Some(_) => None
    case None => if KeyOf(job) in s.queue then None else InitialStatus(s.env.proverType)
  }

  function Heard(s: State, job: Job): State {
    s.(submitted := s.submitted + {job.input.data})
  }

  function Requested(s: State, job: Job): State {
    match Starts(s, job)
    case None => Heard(s, job)
    case Some(st) => Sent(MoveToQueue(Heard(s, job), KeyOf(job), st), Some(job))
  }

  function Done(s: State, i: nat, o: Outcome): State
    requires CanCommit(s, i, o)
  {
    if o.Submitted? then Resent(Committed(s, i, o), i) else Committed(s, i, o)
  }

  ghost function Apply(s: State, e: Event): State
    requires Enabled(s, e)
  {
    match e
    case Request(job) => Requested(s, job)
    case Receive => Received(s)
    case Begin(i) => Began(s, i)
    case Finish(i, o) => Done(s, i, o)
    case Shutdown => Sent(s, None)
    case Crash => Exited(s)
    case Boot(order) => Booted(s, order)
  }

  ghost predicate Runs(s: State, es: seq<Event>)
    decreases |es|
  {
    es == [] || (Enabled(s, es[0]) && Runs(Apply(s, es[0]), es[1..]))
  }

  ghost function After(s: State, es: seq<Event>): State
    requires Runs(s, es)
    decreases |es|
  {
    if es == [] then s else After(Apply(s, es[0]), es[1..])
  }

  // ----- Every step is a run of the fine machine -----

  /** The accesses one call makes. */
  function Accesses(s: State, job: Job): nat {
    match Lookup(s.finished, KeyOf(job))
    case Some(st) => if st.Failed? && st.retry.Some? then 3 else 1
    case None => if Starts(s, job).Some? then 4 else 2
  }

  function Advances(n: nat): seq<Fine.Event> {
    seq(n, _ => Fine.Advance(0))
  }

  function Split(s: State, e: Event): seq<Fine.Event> {
    match e
    case Request(job) => [Fine.Arrive(job)] + Advances(Accesses(s, job))
    case Receive => [Fine.Receive]
    case Begin(i) => [Fine.Begin(i)]
    case Finish(i, o) => [Fine.Commit(i, o)] + (if o.Submitted? then [Fine.Resend(i)] else [])
    case Shutdown => [Fine.Shutdown]
    case Crash => [Fine.Crash]
    case Boot(order) => [Fine.Boot(order)]
  }

  /** A lone call that still has n accesses to make, and the state and answer it ends in. */
  ghost predicate Ends(s: State, n: nat, s': State, a: Answer)
    decreases n
  {
    && s.up && |s.calls| == 1 && n > 0
    && match Fine.Next(s, s.calls[0])
       case Answers(b) => n == 1 && a == b && Fine.Advanced(s, 0) == s'
       case Goes(_) => n > 1 && Ends(Fine.Advanced(s, 0), n - 1, s', a)
  }

  lemma {:induction false} EndsRuns(s: State, n: nat, s': State, a: Answer)
    requires Ends(s, n, s', a)
    ensures Fine.Runs(s, Advances(n)) && Fine.After(s, Advances(n)) == s'
    decreases n
  {
    assert Advances(n) == [Fine.Advance(0)] + Advances(n - 1);
    if n > 1 {
      EndsRuns(Fine.Advanced(s, 0), n - 1, s', a);
    }
    Fine.Extend(s, Fine.Advance(0), Advances(n - 1));
  }

  /** The last access of a lone call. */
  lemma Last(s: State, c: Call, a: Answer)
    requires s.up && s.calls == [c] && Fine.Next(s, c) == Fine.Answers(a)
    ensures Ends(s, 1, Fine.Effect(s, c).(calls := []), a)
  {
    assert Fine.Advanced(s, 0) == Fine.Effect(s, c).(calls := []);
  }

  /** An access of a lone call that is followed by others. */
  lemma Before(s: State, c: Call, c': Call, n: nat, s': State, a: Answer)
    requires s.up && s.calls == [c] && Fine.Next(s, c) == Fine.Goes(c')
    requires Ends(Fine.Effect(s, c).(calls := [c']), n, s', a)
    ensures Ends(s, n + 1, s', a)
  {
    assert Fine.Advanced(s, 0) == Fine.Effect(s, c).(calls := [c']);
  }

  /** A call that puts its key into the queue ends by sending its job. */
  lemma InsertEnds(s: State, c: Call, a: Answer)
    requires s.up && s.calls == [c] && (c.InsertQueue? || c.MoveForRetry?)
    requires c.InsertQueue? ==> KeyOf(c.job) !in s.finished && a == NotYet
    requires c.MoveForRetry? ==> a == Retrying(c.error)
    ensures Ends(s, 2, Sent(MoveToQueue(s, KeyOf(c.job), c.status), Some(c.job)).(calls := []), a)
  {
    var send := SendJob(c.job, a);
    var s1 := Fine.Effect(s, c).(calls := [send]);
    assert c.InsertQueue? ==> s.finished - {KeyOf(c.job)} == s.finished;
    Last(s1, send, a);
    Before(s, c, send, 1, Fine.Effect(s1, send).(calls := []), a);
  }

  /** An undisturbed call makes its accesses, and ends where the single step does, with its answer. */
  lemma CallEnds(s: State, job: Job)
    requires s.up && s.calls == []
    ensures Ends(Fine.Arrived(s, job), Accesses(s, job), Requested(s, job), AnswerTo(s, job))
  {
    var s0, c0, a := Fine.Arrived(s, job), ReadFinished(job), AnswerTo(s, job);
    assert s0.calls == [c0];
    match Fine.Next(s0, c0)
    case Answers(b) =>
      Last(s0, c0, a);
    case Goes(c1) =>
      var s1 := s0.(calls := [c1]);
      if c1.MoveForRetry? {
        InsertEnds(s1, c1, a);
        Before(s0, c0, c1, 2, Requested(s, job), a);
      } else {
        QueueReadEnds(s, job);
        Before(s0, c0, c1, Accesses(s, job) - 1, Requested(s, job), a);
      }
  }

  lemma QueueReadEnds(s: State, job: Job)
    requires s.up && s.calls == [] && KeyOf(job) !in s.finished
    ensures Ends(Heard(s, job).(calls := [ReadQueue(job)]), Accesses(s, job) - 1, Requested(s, job), AnswerTo(s, job))
  {
    var s1, c1, a := Heard(s, job).(calls := [ReadQueue(job)]), ReadQueue(job), AnswerTo(s, job);
    match Fine.Next(s1, c1)
    case Answers(b) =>
      Last(s1, c1, a);
    case Goes(c2) =>
      InsertEnds(s1.(calls := [c2]), c2, a);
      Before(s1, c1, c2, 2, Requested(s, job), a);
  }

  /** Every request-atomic step is a run of the fine machine. */
  lemma StepIsFineRun(s: State, e: Event)
    requires s.calls == [] && Enabled(s, e)
    ensures Fine.Runs(s, Split(s, e)) && Fine.After(s, Split(s, e)) == Apply(s, e)
    ensures Apply(s, e).calls == []
  {
    match e
    case Request(job) =>
      CallEnds(s, job);
      EndsRuns(Fine.Arrived(s, job), Accesses(s, job), Requested(s, job), AnswerTo(s, job));
      Fine.Extend(s, Fine.Arrive(job), Advances(Accesses(s, job)));
    case Finish(i, o) =>
      if o.Submitted? {
        var mid := Committed(s, i, o);
        Fine.Extend(mid, Fine.Resend(i), []);
        Fine.Extend(s, Fine.Commit(i, o), [Fine.Resend(i)]);
        assert [Fine.Resend(i)] + [] == [Fine.Resend(i)];
      } else {
        Fine.Extend(s, Fine.Commit(i, o), []);
      }
    case _ =>
      Fine.Extend(s, Split(s, e)[0], []);
      assert Split(s, e) == [Split(s, e)[0]] + [];
  }

  /** A request-atomic run, access by access. */
  ghost function Flatten(s: State, es: seq<Event>): seq<Fine.Event>
    requires Runs(s, es)
    decreases |es|
  {
    if es == [] then [] else Split(s, es[0]) + Flatten(Apply(s, es[0]), es[1..])
  }

  lemma {:induction false} RunIsFineRun(s: State, es: seq<Event>)
    requires s.calls == [] && Runs(s, es)
    ensures Fine.Runs(s, Flatten(s, es)) && Fine.After(s, Flatten(s, es)) == After(s, es)
    ensures After(s, es).calls == []
    decreases |es|
  {
    if es != [] {
      var s' := Apply(s, es[0]);
      StepIsFineRun(s, es[0]);
      RunIsFineRun(s', es[1..]);
      Fine.RunsConcat(s, Split(s, es[0]), Flatten(s', es[1..]));
    }
  }
}
