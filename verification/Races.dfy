/**
 Runs of the fine machine in which two calls for the same data overlap: both have
 read both trees before either inserts. They show which properties of the
 request-atomic machine the fine one does not have, without any failing prover call.
 */
module Races {
  import opened Jobs
  import opened Sums
  import opened Engine
  import opened Fine
  import opened Healing
  import opened FineAccounting

  const READS: seq<Event> := [Advance(0), Advance(1), Advance(0), Advance(1)]

  /** The rest of the oldest call and of its job, up to its proof. */
  function Proves(p: Proof): seq<Event> {
    [Advance(0), Advance(0), Receive, Begin(0), Commit(0, Proved(p))]
  }

  function BothRead(env: Env, job: Job): State {
    var call := InsertQueue(job, LocalZkProofPending);
    Initial(env).(calls := [call, call], submitted := {job.input.data})
  }

  lemma ReachBothRead(env: Env, job: Job)
    requires InitialStatus(env.proverType) == Some(LocalZkProofPending)
    ensures var es := [Arrive(job), Arrive(job)] + READS;
            Runs(Initial(env), es) && After(Initial(env), es) == BothRead(env, job)
  {
    var s0 := Initial(env);
    var s1 := Apply(s0, Arrive(job));
    var s2 := Apply(s1, Arrive(job));
    assert s2.calls == [ReadFinished(job), ReadFinished(job)];
    var s3 := Apply(s2, Advance(0));
    var s4 := Apply(s3, Advance(1));
    assert s4.calls == [ReadQueue(job), ReadQueue(job)];
    var s5 := Apply(s4, Advance(0));
    var s6 := Apply(s5, Advance(1));
    assert s6 == BothRead(env, job);
    Extend(s5, Advance(1), []);
    Extend(s4, Advance(0), [Advance(1)]);
    Extend(s3, Advance(1), [Advance(0), Advance(1)]);
    Extend(s2, Advance(0), [Advance(1), Advance(0), Advance(1)]);
    Extend(s1, Arrive(job), READS);
    Extend(s0, Arrive(job), [Arrive(job)] + READS);
    assert [Arrive(job)] + ([Arrive(job)] + READS) == [Arrive(job), Arrive(job)] + READS;
  }

  const INSERTS: seq<Event> := [Advance(0), Advance(0)]

  lemma InsertRuns(s: State, job: Job)
    requires s.up && s.queue == map[] && s.channel == []
    requires s.calls != [] && s.calls[0] == InsertQueue(job, LocalZkProofPending)
    ensures Runs(s, INSERTS)
    ensures After(s, INSERTS)
         == s.(calls := s.calls[1..], queue := map[KeyOf(job) := LocalZkProofPending], channel := [Some(job)])
  {
    var s1 := Apply(s, Advance(0));
    assert s1.calls[0] == SendJob(job, NotYet) && s1.queue == map[KeyOf(job) := LocalZkProofPending];
    var s2 := Apply(s1, Advance(0));
    assert s2.calls == s.calls[1..] && s2.channel == [Some(job)];
    Extend(s1, Advance(0), []);
    Extend(s, Advance(0), [Advance(0)]);
  }

  function Works(p: Proof): seq<Event> {
    [Receive, Begin(0), Commit(0, Proved(p))]
  }

  lemma WorkRuns(s: State, job: Job, p: Proof)
    requires s.up && s.queue == map[KeyOf(job) := LocalZkProofPending] && s.channel == [Some(job)] && s.tasks == []
    ensures Runs(s, Works(p))
    ensures After(s, Works(p))
         == s.(queue := map[], channel := [], finished := s.finished[KeyOf(job) := ZkProofFinished(p)])
  {
    var s3 := Apply(s, Receive);
    assert s3.tasks == [Spawned(job)] && s3.channel == [];
    var s4 := Apply(s3, Begin(0));
    assert s4.tasks == [Driving(job, LocalZkProofPending)];
    var s5 := Apply(s4, Commit(0, Proved(p)));
    assert s5.tasks == [] && s5.queue == map[];
    Extend(s4, Commit(0, Proved(p)), []);
    Extend(s3, Begin(0), [Commit(0, Proved(p))]);
    Extend(s, Receive, [Begin(0), Commit(0, Proved(p))]);
  }

  /** With nothing else going on, the oldest call's job runs to its proof. */
  lemma ProvesRuns(s: State, job: Job, p: Proof)
    requires s.up && s.queue == map[] && s.channel == [] && s.tasks == []
    requires s.calls != [] && s.calls[0] == InsertQueue(job, LocalZkProofPending)
    ensures Runs(s, Proves(p))
    ensures After(s, Proves(p)) == s.(calls := s.calls[1..], finished := s.finished[KeyOf(job) := ZkProofFinished(p)])
  {
    InsertRuns(s, job);
    WorkRuns(After(s, INSERTS), job, p);
    RunsConcat(s, INSERTS, Works(p));
    assert Proves(p) == INSERTS + Works(p);
  }

  // ----- What these runs cost -----

  /** The run makes so many calls, and so many attempts and "Retrying!" answers for the key. */
  ghost predicate Costs(s: State, es: seq<Event>, k: Key, calls: nat, attempts: nat, retries: nat) {
    && Runs(s, es)
    && Total(s, es, NewCall()) == calls
    && Total(s, es, Attempt(k)) == attempts
    && Total(s, es, RetryAnswer(k)) == retries
  }

  lemma CostsOne(s: State, e: Event, k: Key)
    requires Enabled(s, e)
    ensures After(s, [e]) == Apply(s, e)
    ensures Costs(s, [e], k, NewCall()(s, e), Attempt(k)(s, e), RetryAnswer(k)(s, e))
  {
    TotalExtend(s, e, [], NewCall());
    TotalExtend(s, e, [], Attempt(k));
    TotalExtend(s, e, [], RetryAnswer(k));
    assert [e] + [] == [e];
  }

  lemma CostsConcat(s: State, es: seq<Event>, fs: seq<Event>, k: Key, c: nat, a: nat, r: nat, c': nat, a': nat, r': nat)
    requires Costs(s, es, k, c, a, r) && Costs(After(s, es), fs, k, c', a', r')
    ensures Costs(s, es + fs, k, c + c', a + a', r + r') && After(s, es + fs) == After(After(s, es), fs)
  {
    RunsConcat(s, es, fs);
    TotalConcat(s, es, fs, NewCall());
    TotalConcat(s, es, fs, Attempt(k));
    TotalConcat(s, es, fs, RetryAnswer(k));
  }

  lemma CostsTwo(s: State, e: Event, e': Event, k: Key)
    requires Enabled(s, e) && Enabled(Apply(s, e), e')
    ensures var s' := Apply(s, e);
            && Costs(s, [e, e'], k, NewCall()(s, e) + NewCall()(s', e'), Attempt(k)(s, e) + Attempt(k)(s', e'),
                     RetryAnswer(k)(s, e) + RetryAnswer(k)(s', e'))
            && After(s, [e, e']) == Apply(s', e')
  {
    var s' := Apply(s, e);
    CostsOne(s, e, k);
    CostsOne(s', e', k);
    CostsConcat(s, [e], [e'], k, NewCall()(s, e), Attempt(k)(s, e), RetryAnswer(k)(s, e),
                NewCall()(s', e'), Attempt(k)(s', e'), RetryAnswer(k)(s', e'));
    assert [e] + [e'] == [e, e'];
  }

  lemma BothReadCosts(env: Env, job: Job, k: Key)
    requires InitialStatus(env.proverType) == Some(LocalZkProofPending)
    ensures Costs(Initial(env), [Arrive(job), Arrive(job)] + READS, k, 2, 0, 0)
  {
    var s0 := Initial(env);
    CostsTwo(s0, Arrive(job), Arrive(job), k);
    var s2 := Apply(Apply(s0, Arrive(job)), Arrive(job));
    assert s2.calls == [ReadFinished(job), ReadFinished(job)];
    CostsTwo(s2, Advance(0), Advance(1), k);
    var s4 := Apply(Apply(s2, Advance(0)), Advance(1));
    assert s4.calls == [ReadQueue(job), ReadQueue(job)];
    CostsTwo(s4, Advance(0), Advance(1), k);
    CostsConcat(s2, [Advance(0), Advance(1)], [Advance(0), Advance(1)], k, 0, 0, 0, 0, 0, 0);
    assert [Advance(0), Advance(1)] + [Advance(0), Advance(1)] == READS;
    CostsConcat(s0, [Arrive(job), Arrive(job)], READS, k, 2, 0, 0, 0, 0, 0);
  }

  lemma InsertCosts(s: State, job: Job, k: Key)
    requires s.up && s.queue == map[] && s.channel == []
    requires s.calls != [] && s.calls[0] == InsertQueue(job, LocalZkProofPending)
    ensures Costs(s, INSERTS, k, 0, 0, 0)
  {
    var s1 := Apply(s, Advance(0));
    assert s1.calls[0] == SendJob(job, NotYet);
    CostsTwo(s, Advance(0), Advance(0), k);
  }

  lemma ProofCosts(s: State, job: Job, p: Proof)
    requires s.up && s.queue == map[KeyOf(job) := LocalZkProofPending] && s.tasks == [Spawned(job)]
    ensures Costs(s, [Begin(0), Commit(0, Proved(p))], KeyOf(job), 0, 1, 0)
  {
    var s' := Apply(s, Begin(0));
    assert s'.tasks == [Driving(job, LocalZkProofPending)];
    CostsTwo(s, Begin(0), Commit(0, Proved(p)), KeyOf(job));
  }

  lemma WorkCosts(s: State, job: Job, p: Proof)
    requires s.up && s.queue == map[KeyOf(job) := LocalZkProofPending] && s.channel == [Some(job)] && s.tasks == []
    ensures Costs(s, Works(p), KeyOf(job), 0, 1, 0)
  {
    var s' := Apply(s, Receive);
    assert s'.tasks == [Spawned(job)] && s'.queue == s.queue;
    CostsOne(s, Receive, KeyOf(job));
    ProofCosts(s', job, p);
    CostsConcat(s, [Receive], [Begin(0), Commit(0, Proved(p))], KeyOf(job), 0, 0, 0, 0, 1, 0);
    assert [Receive] + [Begin(0), Commit(0, Proved(p))] == Works(p);
  }

  lemma ProvesCosts(s: State, job: Job, p: Proof)
    requires s.up && s.queue == map[] && s.channel == [] && s.tasks == []
    requires s.calls != [] && s.calls[0] == InsertQueue(job, LocalZkProofPending)
    ensures Costs(s, Proves(p), KeyOf(job), 0, 1, 0)
  {
    InsertRuns(s, job);
    InsertCosts(s, job, KeyOf(job));
    WorkCosts(After(s, INSERTS), job, p);
    CostsConcat(s, INSERTS, Works(p), KeyOf(job), 0, 0, 0, 0, 1, 0);
    assert Proves(p) == INSERTS + Works(p);
  }

  /** The state after the first of two calls for a job has had its proof, and what it cost. */
  lemma FirstProof(env: Env, job: Job, p: Proof) returns (es: seq<Event>)
    requires InitialStatus(env.proverType) == Some(LocalZkProofPending)
    ensures forall e :: e in es ==> Healthy(e)
    ensures Costs(Initial(env), es, KeyOf(job), 2, 1, 0)
    ensures After(Initial(env), es)
         == BothRead(env, job).(calls := [InsertQueue(job, LocalZkProofPending)],
                                finished := map[KeyOf(job) := ZkProofFinished(p)])
  {
    var s, k := BothRead(env, job), KeyOf(job);
    var seen := [Arrive(job), Arrive(job)] + READS;
    ReachBothRead(env, job);
    BothReadCosts(env, job, k);
    ProvesRuns(s, job, p);
    ProvesCosts(s, job, p);
    CostsConcat(Initial(env), seen, Proves(p), k, 2, 0, 0, 0, 1, 0);
    es := seen + Proves(p);
    ProvesHealthy(p);
  }

  lemma ProvesHealthy(p: Proof)
    ensures Proves(p) != [] && Proves(p)[0] == Advance(0) && forall e :: e in Proves(p) ==> Healthy(e)
  {
  }

  /** The insert of a call that has read too early puts a finished key into the queue. */
  lemma InsertOverlaps(s: State, job: Job)
    requires s.up && s.calls != [] && s.calls[0].InsertQueue? && s.calls[0].job == job && KeyOf(job) in s.finished
    ensures Overlap(Apply(s, Advance(0)), KeyOf(job))
  {
  }

  /**
   A finished proof is not permanent: a healthy run with two calls finishes the key
   with any proof p, puts the key into the queue beside it, and then replaces p by any
   other proof. The key costs two proving attempts without any "Retrying!" answer,
   one more than the request-atomic machine allows.
   */
  lemma FinishedProofReplaced(env: Env, job: Job, p: Proof, p': Proof)
    returns (es: seq<Event>, fs: seq<Event>)
    requires InitialStatus(env.proverType) == Some(LocalZkProofPending)
    ensures Runs(Initial(env), es) && (forall e :: e in es + fs ==> Healthy(e))
    ensures After(Initial(env), es).finished == map[KeyOf(job) := ZkProofFinished(p)]
    ensures Runs(After(Initial(env), es), fs) && fs != []
    ensures Overlap(Apply(After(Initial(env), es), fs[0]), KeyOf(job))
    ensures After(After(Initial(env), es), fs).finished == map[KeyOf(job) := ZkProofFinished(p')]
    ensures Costs(Initial(env), es + fs, KeyOf(job), 2, 2, 0)
  {
    es := FirstProof(env, job, p);
    fs := Proves(p');
    var s := After(Initial(env), es);
    ProvesRuns(s, job, p');
    ProvesCosts(s, job, p');
    InsertOverlaps(s, job);
    ProvesHealthy(p');
    CostsConcat(Initial(env), es, fs, KeyOf(job), 2, 1, 0, 0, 1, 0);
  }

  /** Two drivers for one key: both calls insert and send before the worker receives. */
  lemma TwoDrivers(env: Env, job: Job) returns (es: seq<Event>)
    requires InitialStatus(env.proverType) == Some(LocalZkProofPending)
    ensures Runs(Initial(env), es) && (forall e :: e in es ==> Healthy(e))
    ensures Drivers(After(Initial(env), es), KeyOf(job)) == 2
  {
    var seen := [Arrive(job), Arrive(job)] + READS;
    ReachBothRead(env, job);
    var s := BothRead(env, job);
    var s1 := Apply(s, Advance(0));
    var s2 := Apply(s1, Advance(1));
    assert s2.calls == [SendJob(job, NotYet), SendJob(job, NotYet)];
    Extend(s1, Advance(1), []);
    Extend(s, Advance(0), [Advance(1)]);
    RunsConcat(Initial(env), seen, [Advance(0), Advance(1)]);
    es := seen + [Advance(0), Advance(1)];
    var k := KeyOf(job);
    assert s2.calls[1..] == [SendJob(job, NotYet)];
    assert Sum(s2.calls, SendFor(k)) == 1 + Sum(s2.calls[1..], SendFor(k));
    assert s2.calls[1..][1..] == [];
    assert Sum(s2.calls[1..], SendFor(k)) == 1;
  }
}
