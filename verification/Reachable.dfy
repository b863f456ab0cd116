/**
 The states an honest request-atomic run can reach from an empty database, and all
 that is known of them.
 */
module Reachable {
  import opened Jobs
  import opened Engine
  import opened Atomic
  import Content
  import Fine
  import UniqueDriver

  ghost predicate Honest(s: State, e: Event)
    requires Enabled(s, e)
  {
    match e
    case Request(job) => job == JobFor(s.env, job.input.data)
    case Finish(i, o) => HonestOutcome(s, s.tasks[i], o)
    case _ => true
  }

  ghost predicate HonestRun(s: State, es: seq<Event>)
    requires Runs(s, es)
    decreases |es|
  {
    es == [] || (Honest(s, es[0]) && HonestRun(Apply(s, es[0]), es[1..]))
  }

  ghost predicate Reaches(env: Env, s: State) {
    exists es :: Runs(Initial(env), es) && HonestRun(Initial(env), es) && After(Initial(env), es) == s
  }

  lemma {:induction false} HonestConcat(s: State, es: seq<Event>, fs: seq<Event>)
    requires Runs(s, es) && HonestRun(s, es) && Runs(After(s, es), fs) && HonestRun(After(s, es), fs)
    ensures Runs(s, es + fs) && HonestRun(s, es + fs) && After(s, es + fs) == After(After(s, es), fs)
    decreases |es|
  {
    if es == [] {
      assert es + fs == fs;
    } else {
      var s' := Apply(s, es[0]);
      HonestConcat(s', es[1..], fs);
      assert (es + fs)[0] == es[0] && (es + fs)[1..] == es[1..] + fs;
      assert HonestRun(s', (es + fs)[1..]);
    }
  }

  /** What an honest run reaches from a reachable state is reachable. */
  lemma ReachesOn(env: Env, s: State, es: seq<Event>)
    requires Reaches(env, s) && Runs(s, es) && HonestRun(s, es)
    ensures Reaches(env, After(s, es))
  {
    var before :| Runs(Initial(env), before) && HonestRun(Initial(env), before) && After(Initial(env), before) == s;
    HonestConcat(Initial(env), before, es);
  }

  lemma {:induction false} AdvancesHonest(s: State, n: nat)
    requires Fine.Runs(s, Advances(n))
    ensures Content.HonestRun(s, Advances(n))
    decreases n
  {
    if n > 0 {
      assert Advances(n)[1..] == Advances(n - 1);
      AdvancesHonest(Fine.Apply(s, Fine.Advance(0)), n - 1);
    }
  }

  /** An honest step is an honest run of the fine machine. */
  lemma SplitHonest(s: State, e: Event)
    requires s.calls == [] && Enabled(s, e) && Honest(s, e)
    ensures Fine.Runs(s, Split(s, e)) && Content.HonestRun(s, Split(s, e))
  {
    StepIsFineRun(s, e);
    var es := Split(s, e);
    var s' := Fine.Apply(s, es[0]);
    if e.Request? {
      assert es[1..] == Advances(Accesses(s, e.job));
      AdvancesHonest(s', Accesses(s, e.job));
    } else if e.Finish? && e.outcome.Submitted? {
      assert es[1..] == [Fine.Resend(e.task)];
      assert es[1..][1..] == [];
    } else {
      assert es[1..] == [];
    }
  }

  lemma ContentStep(s: State, e: Event)
    requires s.calls == [] && Fine.Inv(s) && Content.Content(s) && Enabled(s, e) && Honest(s, e)
    ensures Content.Content(Apply(s, e))
  {
    SplitHonest(s, e);
    StepIsFineRun(s, e);
    Content.ContentAlways(s, Split(s, e));
  }

  ghost predicate Sound(s: State) {
    UniqueDriver.Solo(s) && Fine.Inv(s) && Content.Content(s)
  }

  lemma {:induction false} SoundAlways(s: State, es: seq<Event>)
    requires Sound(s) && Runs(s, es) && HonestRun(s, es)
    ensures Sound(After(s, es))
    decreases |es|
  {
    if es != [] {
      ContentStep(s, es[0]);
      UniqueDriver.SoloStep(s, es[0]);
      UniqueDriver.InvStep(s, es[0]);
      SoundAlways(Apply(s, es[0]), es[1..]);
    }
  }

  /** Disjoint trees, at most one driver, status typing and content addressing, all at once. */
  lemma ReachableIsSound(env: Env, s: State)
    requires Reaches(env, s)
    ensures Sound(s)
  {
    var es :| Runs(Initial(env), es) && HonestRun(Initial(env), es) && After(Initial(env), es) == s;
    UniqueDriver.InitialWell(env);
    SoundAlways(Initial(env), es);
  }
}
