/**
 The call-back protocol: a client resubmits the same list until it is forwarded. Each
 call starts at most the first blob without proof, and the work it started is done
 before the next call; so the number of calls is bounded by what was unfinished and by
 how often proving failed. The client's own calls are undisturbed; between them the
 engine runs in fine steps, with other clients' calls on any threads and for any data.
 */
module CallBack {
  import opened Jobs
  import opened Engine
  import opened Proxy
  import opened RoundTrip
  import opened Atomic
  import opened UniqueDriver
  import Content
  import Drain
  import Exposure
  import Fine
  import Healing
  import Lifecycle
  import Reachable
  import Zkvm

  /** A run of the fine machine without crash, stop message and abandoned prover call. */
  ghost predicate HealthyRun(s: State, es: seq<Fine.Event>) {
    Fine.Runs(s, es) && forall e :: e in es ==> Healing.Healthy(e)
  }

  /** The blob's data has a finished proof. */
  predicate Proven(s: State, blob: Blob) {
    KeyFor(s, blob) in s.finished && s.finished[KeyFor(s, blob)].ZkProofFinished?
  }

  /** The blob's data has failed for good. */
  predicate Refused(s: State, blob: Blob) {
    var st := Lookup(s.finished, KeyFor(s, blob));
    st.Some? && st.value.Failed? && st.value.retry.None?
  }

  predicate NoneRefused(s: State, blobs: seq<Blob>) {
    forall b :: b in blobs ==> !Refused(s, b)
  }

  function KeysOf(s: State, blobs: seq<Blob>): set<Key> {
    set b | b in blobs :: KeyFor(s, b)
  }

  /** The keys of the list that have no finished proof yet. */
  function Unfinished(s: State, blobs: seq<Blob>): set<Key> {
    set b | b in blobs && !Proven(s, b) :: KeyFor(s, b)
  }

  /** The finished proofs of the list make blobs under the list's namespaces. */
  predicate Encodes(s: State, crates: Crates, blobs: seq<Blob>) {
    forall b :: b in blobs && Proven(s, b) ==> Sealed(crates, b, s.finished[KeyFor(s, b)].proof).Ok?
  }

  // ----- Failures -----

  predicate Fails(s: State, e: Fine.Event, ks: set<Key>) {
    e.Commit? && e.outcome.NetErr? && e.task < |s.tasks| && KeyOf(s.tasks[e.task].job) in ks
  }

  /** How often a run finalizes one of the keys with a network error. */
  ghost function Failures(s: State, es: seq<Fine.Event>, ks: set<Key>): nat
    requires Fine.Runs(s, es)
    decreases |es|
  {
    if es == [] then 0 else (if Fails(s, es[0], ks) then 1 else 0) + Failures(Fine.Apply(s, es[0]), es[1..], ks)
  }

  /** Every failure of the key was there before. */
  ghost predicate NoNewFailure(s: State, s': State, k: Key) {
    k in s'.finished && s'.finished[k].Failed? ==> Lookup(s.finished, k) == Some(s'.finished[k])
  }

  lemma FailStep(s: State, e: Fine.Event, ks: set<Key>, k: Key)
    requires Fine.Enabled(s, e) && k in ks && !Fails(s, e, ks)
    ensures NoNewFailure(s, Fine.Apply(s, e), k)
  {
  }

  /** A key fails only in a step that counts as a failure. */
  lemma {:induction false} FailRun(s: State, es: seq<Fine.Event>, ks: set<Key>, k: Key)
    requires Fine.Runs(s, es) && k in ks && Failures(s, es, ks) == 0
    ensures NoNewFailure(s, Fine.After(s, es), k)
    decreases |es|
  {
    if es != [] {
      FailStep(s, es[0], ks, k);
      FailRun(Fine.Apply(s, es[0]), es[1..], ks, k);
    }
  }

  lemma {:induction false} FineEnvStays(s: State, es: seq<Fine.Event>)
    requires Fine.Runs(s, es)
    ensures Fine.After(s, es).env == s.env
    decreases |es|
  {
    if es != [] {
      FineEnvStays(Fine.Apply(s, es[0]), es[1..]);
    }
  }

  lemma EnvStays(s: State, es: seq<Event>)
    requires Runs(s, es)
    ensures After(s, es).env == s.env
    decreases |es|
  {
    if es != [] {
      EnvStays(Apply(s, es[0]), es[1..]);
    }
  }

  lemma ProvenStays(s: State, es: seq<Event>, blob: Blob)
    requires Well(s) && Runs(s, es) && Proven(s, blob)
    ensures Proven(After(s, es), blob)
  {
    EnvStays(s, es);
    Lifecycle.Permanence(s, es, JobFor(s.env, blob.data));
  }

  // ----- One call -----

  /** The requests a submit call makes. */
  function Requests(s: State, crates: Crates, blobs: seq<Blob>): seq<Event>
    decreases |blobs|
  {
    if blobs == [] then []
    else
      var job := JobFor(s.env, blobs[0].data);
      var goesOn := SubmitOne(s, crates, blobs[0]).Forwarded?;
      [Request(job)] + (if goesOn then Requests(Requested(s, job), crates, blobs[1..]) else [])
  }

  lemma {:induction false} SubmitIsRun(s: State, crates: Crates, blobs: seq<Blob>)
    requires s.up
    ensures Runs(s, Requests(s, crates, blobs)) && Reachable.HonestRun(s, Requests(s, crates, blobs))
    ensures forall e :: e in Requests(s, crates, blobs) ==> e.Request?
    ensures After(s, Requests(s, crates, blobs)) == SubmitAll(s, crates, blobs).state
    decreases |blobs|
  {
    if blobs != [] {
      var job := JobFor(s.env, blobs[0].data);
      var s' := Requested(s, job);
      var es := Requests(s, crates, blobs);
      if SubmitOne(s, crates, blobs[0]).Forwarded? {
        SubmitIsRun(s', crates, blobs[1..]);
        assert es[1..] == Requests(s', crates, blobs[1..]);
      } else {
        assert es[1..] == [];
      }
    }
  }

  ghost predicate Fair(s: State, crates: Crates, blobs: seq<Blob>) {
    Well(s) && Encodes(s, crates, blobs) && InitialStatus(s.env.proverType).Some?
  }

  /** The client is to call again: its data is being proved, or is being retried. */
  predicate CalledBack(r: Submission) {
    r.Waiting? || (r.Rejected? && r.error.RunnerError? && r.error.answer.Retrying?)
  }

  lemma SameProofs(s: State, s': State, crates: Crates, blobs: seq<Blob>)
    requires s'.env == s.env && s'.finished == s.finished && blobs != [] && Proven(s, blobs[0])
    ensures forall x :: (Proven(s', x) <==> Proven(s, x)) && (Refused(s', x) <==> Refused(s, x))
    ensures Unfinished(s, blobs) == Unfinished(s', blobs[1..])
    ensures NoneRefused(s, blobs) <==> NoneRefused(s', blobs[1..])
    ensures Encodes(s, crates, blobs) ==> Encodes(s', crates, blobs[1..])
  {
    assert blobs == [blobs[0]] + blobs[1..];
    assert forall x :: KeyFor(s', x) == KeyFor(s, x) && (Proven(s', x) <==> Proven(s, x));
    assert forall x :: x in blobs && !Proven(s, x) <==> x in blobs[1..] && !Proven(s', x);
    assert !Refused(s, blobs[0]);
  }

  /** A request for proven data changes nothing that matters here. */
  lemma SkipProven(s: State, crates: Crates, blobs: seq<Blob>)
    requires Fair(s, crates, blobs) && blobs != [] && Proven(s, blobs[0])
    ensures var s' := Requested(s, JobFor(s.env, blobs[0].data));
            && s' == s.(submitted := s.submitted + {blobs[0].data})
            && Fair(s', crates, blobs[1..])
  {
    var job := JobFor(s.env, blobs[0].data);
    var s' := Requested(s, job);
    WellAlways(s, [Request(job)]);
    assert After(s, [Request(job)]) == s';
    SameProofs(s, s', crates, blobs);
  }

  /** The first blob without proof decides the call: its work is under way, started, started again, or refused. */
  lemma FirstUnfinished(s: State, crates: Crates, blob: Blob)
    requires Well(s) && !Proven(s, blob) && InitialStatus(s.env.proverType).Some?
    ensures var r := SubmitOne(s, crates, blob); var s' := Requested(s, JobFor(s.env, blob.data));
            && !r.Forwarded?
            && (Refused(s, blob) <==> !CalledBack(r))
            && (r.Waiting? <==> KeyFor(s, blob) !in s.finished)
            && (CalledBack(r) ==> KeyFor(s, blob) in s'.queue)
  {
    var k := KeyFor(s, blob);
    assert k in s.queue ==> InProgress(s.queue[k]);
    assert k in s.finished ==> Fine.FinishedStatus(s.finished[k]);
  }

  /**
   What a call comes to: forwarded exactly when every blob has its proof. If no blob is
   refused it is otherwise called back, with "pending" if none has failed at all; and a
   call that is called back leaves a blob without proof in the queue.
   */
  ghost predicate Outcomes(s: State, r: AfterSubmit, blobs: seq<Blob>) {
    && (r.result.Forwarded? <==> Unfinished(s, blobs) == {})
    && (NoneRefused(s, blobs) ==> (CalledBack(r.result) <==> Unfinished(s, blobs) != {}))
    && ((forall b :: b in blobs && !Proven(s, b) ==> KeyFor(s, b) !in s.finished)
          ==> (r.result == Waiting <==> Unfinished(s, blobs) != {}))
    && (CalledBack(r.result) ==> exists b :: b in blobs && !Proven(s, b) && KeyFor(s, b) in r.state.queue)
  }

  lemma OutcomesFirst(s: State, crates: Crates, blobs: seq<Blob>)
    requires Fair(s, crates, blobs) && blobs != [] && !Proven(s, blobs[0])
    ensures Outcomes(s, SubmitAll(s, crates, blobs), blobs)
  {
    var b := blobs[0];
    assert b in blobs;
    FirstUnfinished(s, crates, b);
    assert KeyFor(s, b) in Unfinished(s, blobs);
  }

  lemma OutcomesSkip(s: State, crates: Crates, blobs: seq<Blob>)
    requires Fair(s, crates, blobs) && blobs != [] && Proven(s, blobs[0])
    requires var s' := Requested(s, JobFor(s.env, blobs[0].data));
             Outcomes(s', SubmitAll(s', crates, blobs[1..]), blobs[1..])
    ensures Outcomes(s, SubmitAll(s, crates, blobs), blobs)
  {
    var s' := Requested(s, JobFor(s.env, blobs[0].data));
    assert blobs[0] in blobs;
    OneReady(s, crates, blobs[0]);
    SkipProven(s, crates, blobs);
    SameProofs(s, s', crates, blobs);
    assert forall b :: b in blobs && !Proven(s, b) ==> b in blobs[1..];
  }

  lemma {:induction false} PendingIff(s: State, crates: Crates, blobs: seq<Blob>)
    requires Fair(s, crates, blobs)
    ensures Outcomes(s, SubmitAll(s, crates, blobs), blobs)
    decreases |blobs|
  {
    if blobs != [] {
      if Proven(s, blobs[0]) {
        SkipProven(s, crates, blobs);
        PendingIff(Requested(s, JobFor(s.env, blobs[0].data)), crates, blobs[1..]);
        OutcomesSkip(s, crates, blobs);
      } else {
        OutcomesFirst(s, crates, blobs);
      }
    }
  }

  /** Whatever its answer, a submit call changes the trees at one key at most. */
  lemma {:induction false} TouchesOneKey(s: State, crates: Crates, blobs: seq<Blob>) returns (k: Key)
    ensures var s' := SubmitAll(s, crates, blobs).state;
            s'.queue - {k} == s.queue - {k} && s'.finished - {k} == s.finished - {k}
    decreases |blobs|
  {
    if blobs == [] {
      k := [];
    } else {
      OneReady(s, crates, blobs[0]);
      if SubmitOne(s, crates, blobs[0]).Forwarded? {
        k := TouchesOneKey(Requested(s, JobFor(s.env, blobs[0].data)), crates, blobs[1..]);
      } else {
        k := KeyFor(s, blobs[0]);
      }
    }
  }

  // ----- Rounds -----

  /**
   One round: a call that is called back, and a healthy fine run, network errors and
   other clients' calls included, that leaves the engine idle.
   */
  ghost predicate Round(s: State, t: State, crates: Crates, blobs: seq<Blob>, es: seq<Fine.Event>) {
    var r := SubmitAll(s, crates, blobs);
    && CalledBack(r.result)
    && HealthyRun(r.state, es)
    && Fine.After(r.state, es) == t
    && Drain.Idle(t)
    && Encodes(t, crates, blobs)
  }

  /** The failures of the list's keys in a round. */
  ghost function RoundFailures(s: State, crates: Crates, blobs: seq<Blob>, es: seq<Fine.Event>): nat
    requires Fine.Runs(SubmitAll(s, crates, blobs).state, es)
  {
    Failures(SubmitAll(s, crates, blobs).state, es, KeysOf(s, blobs))
  }

  /** An idle healthy engine is as after request-atomic steps only. */
  lemma IdleIsWell(s: State)
    requires s.up && Fine.Inv(s) && Healing.NoStop(s) && Healing.Healed(s) && Drain.Idle(s)
    ensures Well(s) && s.queue == map[]
  {
    Drain.IdleHealed(s);
  }

  lemma RunKeepsWell(s: State, es: seq<Fine.Event>)
    requires Well(s) && HealthyRun(s, es) && Drain.Idle(Fine.After(s, es))
    ensures Well(Fine.After(s, es)) && Fine.After(s, es).queue == map[]
  {
    Healing.HealedAlways(s, es);
    IdleIsWell(Fine.After(s, es));
  }

  /** A proof stays, whatever the fine run, if it starts where no call is in progress. */
  lemma FineProvenStays(s: State, es: seq<Fine.Event>, blob: Blob)
    requires Well(s) && Fine.Runs(s, es) && Proven(s, blob)
    ensures Proven(Fine.After(s, es), blob)
  {
    FineEnvStays(s, es);
    Exposure.AtRestNoRisk(s, es, KeyFor(s, blob));
  }

  /** What was queued is finished once a healthy engine is idle, and proven if none of the list's keys failed. */
  lemma IdleProves(s: State, es: seq<Fine.Event>, b: Blob, ks: set<Key>)
    requires Well(s) && HealthyRun(s, es) && Drain.Idle(Fine.After(s, es))
    requires KeyFor(s, b) in s.queue && KeyFor(s, b) in ks && Failures(s, es, ks) == 0
    ensures Proven(Fine.After(s, es), b)
  {
    var t, k := Fine.After(s, es), KeyFor(s, b);
    RunKeepsWell(s, es);
    Fine.Conservation(s, es);
    FineEnvStays(s, es);
    FailRun(s, es, ks, k);
    assert k in t.finished && Fine.FinishedStatus(t.finished[k]);
  }

  /** A submit call finishes nothing. */
  lemma {:induction false} SubmitFinishesNothing(s: State, crates: Crates, blobs: seq<Blob>)
    ensures var s' := SubmitAll(s, crates, blobs).state;
            s'.env == s.env && forall k :: k in s'.finished ==> k in s.finished && s'.finished[k] == s.finished[k]
    decreases |blobs|
  {
    if blobs != [] && SubmitOne(s, crates, blobs[0]).Forwarded? {
      SubmitFinishesNothing(Requested(s, JobFor(s.env, blobs[0].data)), crates, blobs[1..]);
    }
  }

  /** A submit call leaves a healthy engine, and every proof. */
  lemma SubmitKeeps(s: State, crates: Crates, blobs: seq<Blob>)
    requires Fair(s, crates, blobs)
    ensures var s1 := SubmitAll(s, crates, blobs).state;
            s1.env == s.env && Well(s1) && forall x :: Proven(s, x) ==> Proven(s1, x)
  {
    var rs := Requests(s, crates, blobs);
    SubmitIsRun(s, crates, blobs);
    SubmitFinishesNothing(s, crates, blobs);
    WellAlways(s, rs);
    forall x | Proven(s, x) ensures Proven(After(s, rs), x) {
      ProvenStays(s, rs, x);
    }
  }

  lemma RoundKeeps(s: State, t: State, crates: Crates, blobs: seq<Blob>, es: seq<Fine.Event>)
    requires Fair(s, crates, blobs) && Round(s, t, crates, blobs, es)
    ensures t.env == s.env && Fair(t, crates, blobs) && forall x :: Proven(s, x) ==> Proven(t, x)
  {
    var s1 := SubmitAll(s, crates, blobs).state;
    SubmitKeeps(s, crates, blobs);
    RunKeepsWell(s1, es);
    FineEnvStays(s1, es);
    forall x | Proven(s, x) ensures Proven(t, x) {
      FineProvenStays(s1, es, x);
    }
  }

  /** A round loses no proof, and finishes a blob of the list or counts a failure. */
  lemma RoundProgress(s: State, t: State, crates: Crates, blobs: seq<Blob>, es: seq<Fine.Event>)
    requires Fair(s, crates, blobs) && Round(s, t, crates, blobs, es)
    ensures Fair(t, crates, blobs)
    ensures Unfinished(t, blobs) <= Unfinished(s, blobs)
    ensures RoundFailures(s, crates, blobs, es) == 0 ==> Unfinished(t, blobs) < Unfinished(s, blobs)
  {
    var s1 := SubmitAll(s, crates, blobs).state;
    RoundKeeps(s, t, crates, blobs, es);
    UnfinishedShrinks(s, t, blobs);
    PendingIff(s, crates, blobs);
    SubmitKeeps(s, crates, blobs);
    var b :| b in blobs && !Proven(s, b) && KeyFor(s, b) in s1.queue;
    if RoundFailures(s, crates, blobs, es) == 0 {
      IdleProves(s1, es, b, KeysOf(s, blobs));
      assert KeyFor(s, b) in Unfinished(s, blobs) && KeyFor(s, b) !in Unfinished(t, blobs);
    }
  }

  lemma UnfinishedShrinks(s: State, t: State, blobs: seq<Blob>)
    requires t.env == s.env
    requires forall x :: x in blobs && Proven(s, x) ==> Proven(t, x)
    ensures Unfinished(t, blobs) <= Unfinished(s, blobs)
  {
    forall k | k in Unfinished(t, blobs) ensures k in Unfinished(s, blobs) {
      var x :| x in blobs && !Proven(t, x) && k == KeyFor(t, x);
      assert !Proven(s, x) && KeyFor(t, x) == KeyFor(s, x);
    }
  }

  /** Rounds one after the other: states[i] is where round i starts, and the last state where the last one ended. */
  ghost predicate Rounds(states: seq<State>, runs: seq<seq<Fine.Event>>, crates: Crates, blobs: seq<Blob>)
    decreases |runs|
  {
    && |states| == |runs| + 1
    && (runs == [] || (&& Round(states[0], states[1], crates, blobs, runs[0])
                       && Rounds(states[1..], runs[1..], crates, blobs)))
  }

  ghost function TotalFailures(states: seq<State>, runs: seq<seq<Fine.Event>>, crates: Crates, blobs: seq<Blob>): nat
    requires Rounds(states, runs, crates, blobs)
    decreases |runs|
  {
    if runs == [] then 0
    else RoundFailures(states[0], crates, blobs, runs[0]) + TotalFailures(states[1..], runs[1..], crates, blobs)
  }

  lemma SmallerSet<T>(a: set<T>, b: set<T>)
    requires a < b
    ensures |a| < |b|
  {
    var x :| x in b && x !in a;
    assert a <= b - {x};
    SubsetSize(a, b - {x});
  }

  lemma {:induction false} SubsetSize<T>(a: set<T>, b: set<T>)
    requires a <= b
    ensures |a| <= |b|
  {
    if a != {} {
      var x :| x in a;
      SubsetSize(a - {x}, b - {x});
    }
  }

  /** Every round finishes a blob or counts a failure. */
  lemma {:induction false} RoundsProgress(states: seq<State>, runs: seq<seq<Fine.Event>>, crates: Crates,
                                          blobs: seq<Blob>)
    requires Rounds(states, runs, crates, blobs) && Fair(states[0], crates, blobs)
    ensures Fair(states[|runs|], crates, blobs)
    ensures |runs| + |Unfinished(states[|runs|], blobs)|
         <= |Unfinished(states[0], blobs)| + TotalFailures(states, runs, crates, blobs)
    decreases |runs|
  {
    if runs != [] {
      var s, t := states[0], states[1];
      RoundProgress(s, t, crates, blobs, runs[0]);
      SubsetSize(Unfinished(t, blobs), Unfinished(s, blobs));
      if RoundFailures(s, crates, blobs, runs[0]) == 0 {
        SmallerSet(Unfinished(t, blobs), Unfinished(s, blobs));
      }
      RoundsProgress(states[1..], runs[1..], crates, blobs);
    }
  }

  /**
   Convergence: with the engine idle before each new call, the calls that are called
   back are at most as many as there were distinct unfinished anchors and failed proving
   attempts of the list. After that many the next call is forwarded; before, it is
   forwarded exactly if nothing is unfinished, and called back unless a blob is refused.
   */
  lemma Converges(states: seq<State>, runs: seq<seq<Fine.Event>>, crates: Crates, blobs: seq<Blob>)
    requires Rounds(states, runs, crates, blobs) && Fair(states[0], crates, blobs)
    ensures var last := states[|runs|]; var next := SubmitAll(last, crates, blobs).result;
            var bound := |Unfinished(states[0], blobs)| + TotalFailures(states, runs, crates, blobs);
            && |runs| <= bound
            && (|runs| == bound ==> next.Forwarded?)
            && (next.Forwarded? <==> Unfinished(last, blobs) == {})
            && (NoneRefused(last, blobs) ==> next.Forwarded? || CalledBack(next))
  {
    RoundsProgress(states, runs, crates, blobs);
    PendingIff(states[|runs|], crates, blobs);
  }

  // ----- Every drain ends a round -----

  /** The engine has no step of its own left that honest provers allow. */
  ghost predicate Halted(s: State) {
    forall e :: Drain.Internal(e) && Fine.Enabled(s, e) ==> !Content.Honest(s, e)
  }

  lemma HaltedIsIdle(s: State)
    requires s.up && Halted(s)
    ensures Drain.Idle(s)
  {
    if s.calls != [] {
      assert Drain.Internal(Fine.Advance(0)) && Fine.Enabled(s, Fine.Advance(0));
    } else if s.channel != [] {
      assert Drain.Internal(Fine.Receive) && Fine.Enabled(s, Fine.Receive);
    } else if s.tasks != [] {
      var e := match s.tasks[0]
        case Spawned(_) => Fine.Begin(0)
        case Driving(_, _) => Fine.Commit(0, NetErr(RpcError))
        case Resending(_) => Fine.Resend(0);
      assert Drain.Internal(e) && Fine.Enabled(s, e);
    }
  }

  /**
   After a call that is called back, every fine run of the engine's own steps is bounded
   in length by the state it starts in, and one that cannot go on honestly ends a round.
   */
  lemma DrainEndsRound(s: State, crates: Crates, blobs: seq<Blob>, es: seq<Fine.Event>)
    requires Fair(s, crates, blobs) && CalledBack(SubmitAll(s, crates, blobs).result)
    requires Fine.Runs(SubmitAll(s, crates, blobs).state, es) && forall e :: e in es ==> Drain.Internal(e)
    ensures var s1 := SubmitAll(s, crates, blobs).state; var t := Fine.After(s1, es);
            && |es| <= Drain.Potential(s1)
            && (Halted(t) && Encodes(t, crates, blobs) ==> Round(s, t, crates, blobs, es))
  {
    var s1 := SubmitAll(s, crates, blobs).state;
    SubmitKeeps(s, crates, blobs);
    Drain.DrainIsFinite(s1, es);
    Healing.HealedAlways(s1, es);
    if Halted(Fine.After(s1, es)) {
      HaltedIsIdle(Fine.After(s1, es));
    }
  }

  // ----- Honest provers -----

  /** The engine's own request-atomic steps. */
  predicate Quiet(e: Event) {
    UniqueDriver.Healthy(e) && !e.Request?
  }

  lemma StepFalls(s: State, e: Event)
    requires Well(s) && Enabled(s, e) && Quiet(e)
    ensures Drain.Potential(Apply(s, e)) < Drain.Potential(s)
  {
    StepIsFineRun(s, e);
    forall f | f in Split(s, e) ensures Drain.Internal(f) {
      assert f == Split(s, e)[0] || f.Resend?;
    }
    Drain.DrainIsFinite(s, Split(s, e));
  }

  lemma WellStep(s: State, e: Event)
    requires Well(s) && Enabled(s, e) && UniqueDriver.Healthy(e)
    ensures Well(Apply(s, e))
  {
    WellAlways(s, [e]);
    assert After(s, [e]) == Apply(s, e);
  }

  /** What honest provers may return: for all data, a proof of it. */
  ghost predicate HonestProver(env: Env, prover: Bytes -> Proof) {
    forall data :: Attests(env, prover(data), data)
  }

  function MadeProof(env: Env, nonce: Nonce, data: Bytes): Proof {
    Proof([], Zkvm.Emit(Zkvm.Statement(env.sha, env.encryptionKey, nonce, data)))
  }

  lemma MadeProofAttests(env: Env, nonce: Nonce, data: Bytes)
    ensures Attests(env, MadeProof(env, nonce, data), data)
  {
    var p := MadeProof(env, nonce, data);
    assert p.publicValues == Zkvm.Emit(Zkvm.Statement(env.sha, env.encryptionKey, nonce, data));
  }

  /** There is such a prover. */
  lemma SomeProver(env: Env, nonce: Nonce) returns (prover: Bytes -> Proof)
    ensures HonestProver(env, prover)
  {
    prover := data => MadeProof(env, nonce, data);
    forall data ensures Attests(env, prover(data), data) {
      MadeProofAttests(env, nonce, data);
    }
  }

  /** The data an honest proof for the task is about. */
  function Asked(s: State, t: Task): Bytes
    requires t.Driving?
  {
    if t.status.RemoteZkProofPending? && t.status.id in s.network then s.network[t.status.id] else t.job.input.data
  }

  /** An honest step of the engine's own in which nothing fails and a proof is the prover's. */
  ghost predicate Smooth(s: State, e: Event, prover: Bytes -> Proof) {
    && Enabled(s, e) && Quiet(e) && Reachable.Honest(s, e)
    && (e.Finish? ==> e.outcome.Submitted? || exists data :: e.outcome == Proved(prover(data)))
  }

  /** An engine that is not idle has such a step to take. */
  lemma SomeStep(s: State, prover: Bytes -> Proof) returns (e: Event)
    requires Well(s) && !Drain.Idle(s) && HonestProver(s.env, prover)
    ensures Smooth(s, e, prover)
  {
    if s.channel != [] {
      e := Receive;
    } else {
      var t := s.tasks[0];
      assert TaskAgrees(s, t) && Fine.TaskTyped(t);
      if t.Spawned? {
        e := Begin(0);
      } else if t.status.RemoteZkProofRequesting? {
        var id := FreshId(s);
        e := Finish(0, Submitted(id));
      } else {
        assert Attests(s.env, prover(Asked(s, t)), Asked(s, t));
        e := Finish(0, Proved(prover(Asked(s, t))));
      }
    }
  }

  // ----- The client is served -----

  /** Whatever the prover proves makes blobs under the list's namespaces. */
  ghost predicate Sealable(prover: Bytes -> Proof, crates: Crates, blobs: seq<Blob>) {
    forall b, data :: b in blobs ==> Sealed(crates, b, prover(data)).Ok?
  }

  lemma EncodesStep(s: State, e: Event, prover: Bytes -> Proof, crates: Crates, blobs: seq<Blob>)
    requires Smooth(s, e, prover) && Encodes(s, crates, blobs) && Sealable(prover, crates, blobs)
    ensures Encodes(Apply(s, e), crates, blobs)
  {
    var s' := Apply(s, e);
    forall b | b in blobs && Proven(s', b) ensures Sealed(crates, b, s'.finished[KeyFor(s', b)].proof).Ok? {
      assert KeyFor(s', b) == KeyFor(s, b);
      if !Proven(s, b) || s'.finished[KeyFor(s, b)] != s.finished[KeyFor(s, b)] {
        assert e.Finish? && e.outcome.Proved?;
      }
    }
  }

  ghost predicate SmoothRun(s: State, es: seq<Event>, prover: Bytes -> Proof)
    decreases |es|
  {
    es == [] || (Smooth(s, es[0], prover) && SmoothRun(Apply(s, es[0]), es[1..], prover))
  }

  lemma {:induction false} SmoothIsHonest(s: State, es: seq<Event>, prover: Bytes -> Proof)
    requires SmoothRun(s, es, prover)
    ensures Runs(s, es) && Reachable.HonestRun(s, es)
    ensures forall e :: e in es ==> Quiet(e) && !(e.Finish? && e.outcome.NetErr?)
    decreases |es|
  {
    if es != [] {
      SmoothIsHonest(Apply(s, es[0]), es[1..], prover);
    }
  }

  lemma {:induction false} FlatSucceeds(s: State, es: seq<Event>)
    requires Runs(s, es) && forall e :: e in es ==> !(e.Finish? && e.outcome.NetErr?)
    ensures forall f :: f in Flatten(s, es) ==> !(f.Commit? && f.outcome.NetErr?)
    decreases |es|
  {
    if es != [] {
      FlatSucceeds(Apply(s, es[0]), es[1..]);
      forall f | f in Split(s, es[0]) ensures !(f.Commit? && f.outcome.NetErr?) {
        assert f == Split(s, es[0])[0] || f.Advance? || f.Resend?;
      }
    }
  }

  lemma {:induction false} SuccessIsNoFailure(s: State, es: seq<Fine.Event>, ks: set<Key>)
    requires Fine.Runs(s, es) && forall e :: e in es ==> !(e.Commit? && e.outcome.NetErr?)
    ensures Failures(s, es, ks) == 0
    decreases |es|
  {
    if es != [] {
      SuccessIsNoFailure(Fine.Apply(s, es[0]), es[1..], ks);
    }
  }

  /** A smooth run, access by access, is a healthy run without failure. */
  lemma SmoothIsFine(s: State, es: seq<Event>, prover: Bytes -> Proof, ks: set<Key>)
    requires s.calls == [] && SmoothRun(s, es, prover)
    ensures Runs(s, es) && HealthyRun(s, Flatten(s, es))
    ensures Fine.After(s, Flatten(s, es)) == After(s, es) && Failures(s, Flatten(s, es), ks) == 0
  {
    SmoothIsHonest(s, es, prover);
    RunIsFineRun(s, es);
    FlatHealthy(s, es);
    FlatSucceeds(s, es);
    SuccessIsNoFailure(s, Flatten(s, es), ks);
  }

  lemma {:induction false} EncodesStays(s: State, es: seq<Event>, prover: Bytes -> Proof, crates: Crates,
                                        blobs: seq<Blob>)
    requires SmoothRun(s, es, prover) && Runs(s, es)
    requires Encodes(s, crates, blobs) && Sealable(prover, crates, blobs)
    ensures Encodes(After(s, es), crates, blobs)
    decreases |es|
  {
    if es != [] {
      EncodesStep(s, es[0], prover, crates, blobs);
      EncodesStays(Apply(s, es[0]), es[1..], prover, crates, blobs);
    }
  }

  lemma SmoothStep(s: State, prover: Bytes -> Proof) returns (e: Event)
    requires Well(s) && !Drain.Idle(s) && HonestProver(s.env, prover)
    ensures Smooth(s, e, prover) && Well(Apply(s, e)) && Apply(s, e).env == s.env
    ensures Drain.Potential(Apply(s, e)) < Drain.Potential(s)
  {
    e := SomeStep(s, prover);
    StepFalls(s, e);
    WellStep(s, e);
  }

  /** From every healthy state, such a run leaves the engine idle. */
  lemma {:induction false} DrainExists(s: State, prover: Bytes -> Proof) returns (es: seq<Event>)
    requires Well(s) && HonestProver(s.env, prover)
    ensures Runs(s, es) && SmoothRun(s, es, prover) && Drain.Idle(After(s, es))
    decreases Drain.Potential(s)
  {
    if Drain.Idle(s) {
      es := [];
    } else {
      var e := SmoothStep(s, prover);
      var rest := DrainExists(Apply(s, e), prover);
      es := [e] + rest;
      assert es[1..] == rest;
    }
  }

  lemma NoneRefusedStays(s: State, t: State, blobs: seq<Blob>)
    requires t.env == s.env && NoneRefused(s, blobs)
    requires forall b :: b in blobs ==> NoNewFailure(s, t, KeyFor(s, b))
    ensures NoneRefused(t, blobs)
  {
    forall b | b in blobs ensures !Refused(t, b) {
      assert KeyFor(t, b) == KeyFor(s, b) && NoNewFailure(s, t, KeyFor(s, b));
    }
  }

  /** The round's run is an honest prover's smooth run, access by access. */
  ghost predicate SmoothRound(s: State, es: seq<Fine.Event>, prover: Bytes -> Proof, crates: Crates, blobs: seq<Blob>) {
    var s1 := SubmitAll(s, crates, blobs).state;
    exists steps :: SmoothRun(s1, steps, prover) && Runs(s1, steps) && es == Flatten(s1, steps)
  }

  lemma SubmitEncodes(s: State, crates: Crates, blobs: seq<Blob>)
    requires Encodes(s, crates, blobs)
    ensures Encodes(SubmitAll(s, crates, blobs).state, crates, blobs)
  {
    SubmitFinishesNothing(s, crates, blobs);
    var s' := SubmitAll(s, crates, blobs).state;
    forall b | b in blobs && Proven(s', b) ensures Sealed(crates, b, s'.finished[KeyFor(s', b)].proof).Ok? {
      assert KeyFor(s', b) == KeyFor(s, b) && Proven(s, b);
    }
  }

  /** While a blob is unfinished and none is refused, an honest round without failure can be made. */
  lemma RoundExists(s: State, prover: Bytes -> Proof, crates: Crates, blobs: seq<Blob>)
    returns (t: State, es: seq<Fine.Event>)
    requires Fair(s, crates, blobs) && NoneRefused(s, blobs) && Unfinished(s, blobs) != {}
    requires HonestProver(s.env, prover) && Sealable(prover, crates, blobs)
    ensures Round(s, t, crates, blobs, es) && RoundFailures(s, crates, blobs, es) == 0
    ensures SmoothRound(s, es, prover, crates, blobs)
  {
    var s1, ks := SubmitAll(s, crates, blobs).state, KeysOf(s, blobs);
    PendingIff(s, crates, blobs);
    SubmitKeeps(s, crates, blobs);
    SubmitEncodes(s, crates, blobs);
    var steps := DrainExists(s1, prover);
    SmoothIsFine(s1, steps, prover, ks);
    EncodesStays(s1, steps, prover, crates, blobs);
    t, es := After(s1, steps), Flatten(s1, steps);
  }

  lemma RoundRefusesNone(s: State, t: State, crates: Crates, blobs: seq<Blob>, es: seq<Fine.Event>)
    requires Fair(s, crates, blobs) && NoneRefused(s, blobs)
    requires Round(s, t, crates, blobs, es) && RoundFailures(s, crates, blobs, es) == 0
    ensures NoneRefused(t, blobs)
  {
    var s1 := SubmitAll(s, crates, blobs).state;
    SubmitFinishesNothing(s, crates, blobs);
    NoneRefusedStays(s, s1, blobs);
    FineEnvStays(s1, es);
    forall b | b in blobs ensures NoNewFailure(s1, t, KeyFor(s1, b)) {
      FailRun(s1, es, KeysOf(s, blobs), KeyFor(s, b));
    }
    NoneRefusedStays(s1, t, blobs);
  }

  /** An honest round leads from a reachable state to a reachable state. */
  lemma RoundReaches(s: State, t: State, prover: Bytes -> Proof, crates: Crates, blobs: seq<Blob>,
                     es: seq<Fine.Event>)
    requires Fair(s, crates, blobs) && Reachable.Reaches(s.env, s)
    requires Round(s, t, crates, blobs, es) && SmoothRound(s, es, prover, crates, blobs)
    ensures Reachable.Reaches(s.env, t)
  {
    var s1 := SubmitAll(s, crates, blobs).state;
    SubmitIsRun(s, crates, blobs);
    SubmitKeeps(s, crates, blobs);
    Reachable.ReachesOn(s.env, s, Requests(s, crates, blobs));
    var steps :| SmoothRun(s1, steps, prover) && Runs(s1, steps) && es == Flatten(s1, steps);
    SmoothIsHonest(s1, steps, prover);
    RunIsFineRun(s1, steps);
    Reachable.ReachesOn(s.env, s1, steps);
  }

  /** An honest round without failure that finishes a blob. */
  lemma NextRound(s: State, prover: Bytes -> Proof, crates: Crates, blobs: seq<Blob>)
    returns (t: State, es: seq<Fine.Event>)
    requires Fair(s, crates, blobs) && NoneRefused(s, blobs) && Unfinished(s, blobs) != {}
    requires HonestProver(s.env, prover) && Sealable(prover, crates, blobs)
    ensures Round(s, t, crates, blobs, es) && SmoothRound(s, es, prover, crates, blobs)
    ensures t.env == s.env && Fair(t, crates, blobs) && NoneRefused(t, blobs)
    ensures |Unfinished(t, blobs)| < |Unfinished(s, blobs)|
    ensures Reachable.Reaches(s.env, s) ==> Reachable.Reaches(s.env, t)
  {
    t, es := RoundExists(s, prover, crates, blobs);
    RoundKeeps(s, t, crates, blobs, es);
    RoundProgress(s, t, crates, blobs, es);
    RoundRefusesNone(s, t, crates, blobs, es);
    SmallerSet(Unfinished(t, blobs), Unfinished(s, blobs));
    if Reachable.Reaches(s.env, s) {
      RoundReaches(s, t, prover, crates, blobs, es);
    }
  }

  ghost predicate SmoothRounds(states: seq<State>, runs: seq<seq<Fine.Event>>, prover: Bytes -> Proof, crates: Crates,
                               blobs: seq<Blob>)
    requires |states| == |runs| + 1
  {
    forall i :: 0 <= i < |runs| ==> SmoothRound(states[i], runs[i], prover, crates, blobs)
  }

  lemma RoundsCons(s: State, es: seq<Fine.Event>, states: seq<State>, runs: seq<seq<Fine.Event>>,
                   prover: Bytes -> Proof, crates: Crates, blobs: seq<Blob>)
    requires Rounds(states, runs, crates, blobs) && SmoothRounds(states, runs, prover, crates, blobs)
    requires Round(s, states[0], crates, blobs, es) && SmoothRound(s, es, prover, crates, blobs)
    ensures Rounds([s] + states, [es] + runs, crates, blobs)
    ensures SmoothRounds([s] + states, [es] + runs, prover, crates, blobs)
  {
    assert ([s] + states)[1..] == states && ([es] + runs)[1..] == runs;
    forall i | 0 <= i < |[es] + runs|
      ensures SmoothRound(([s] + states)[i], ([es] + runs)[i], prover, crates, blobs)
    {
      if i > 0 {
        assert ([s] + states)[i] == states[i - 1] && ([es] + runs)[i] == runs[i - 1];
      }
    }
  }

  /**
   So the client does get its list forwarded, whatever honest prover does the work: by
   honest rounds without failure, at most as many as there were unfinished anchors.
   */
  lemma {:induction false} ForwardedEventually(s: State, prover: Bytes -> Proof, crates: Crates, blobs: seq<Blob>)
    returns (states: seq<State>, runs: seq<seq<Fine.Event>>)
    requires Fair(s, crates, blobs) && NoneRefused(s, blobs)
    requires HonestProver(s.env, prover) && Sealable(prover, crates, blobs)
    ensures Rounds(states, runs, crates, blobs) && states[0] == s && |runs| <= |Unfinished(s, blobs)|
    ensures SmoothRounds(states, runs, prover, crates, blobs)
    ensures SubmitAll(states[|runs|], crates, blobs).result.Forwarded?
    ensures Reachable.Reaches(s.env, s) ==> Reachable.Reaches(s.env, states[|runs|])
    decreases |Unfinished(s, blobs)|
  {
    if Unfinished(s, blobs) == {} {
      PendingIff(s, crates, blobs);
      states, runs := [s], [];
    } else {
      var t, es := NextRound(s, prover, crates, blobs);
      var later, runs' := ForwardedEventually(t, prover, crates, blobs);
      RoundsCons(s, es, later, runs', prover, crates, blobs);
      states, runs := [s] + later, [es] + runs';
    }
  }
}
