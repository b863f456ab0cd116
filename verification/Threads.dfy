/**
 The call-back protocol when the client's own calls interleave with everything else. A
 submit call that is called back was put off on one of its blobs: some access of a call
 for that blob's data answered "pending" or "Retrying!". That much about a run, wherever
 it happens in it, is enough for the bound on the number of calls.
 */
module Threads {
  import opened Jobs
  import opened Engine
  import opened Fine
  import opened Proxy
  import opened RoundTrip
  import opened CallBack
  import opened UniqueDriver
  import Drain
  import Exposure
  import FineAccounting
  import Sums

  /** The step answers a call for the key. */
  predicate AnswersFor(s: State, e: Fine.Event, k: Key) {
    e.Advance? && e.call < |s.calls| && KeyOf(s.calls[e.call].job) == k && Next(s, s.calls[e.call]).Answers?
  }

  predicate PutsOff(s: State, e: Fine.Event, k: Key) {
    && AnswersFor(s, e, k)
    && var a := Next(s, s.calls[e.call]).answer;
    a == NotYet || a.Retrying?
  }

  /** Some step of the run does. */
  ghost predicate PutOff(s: State, es: seq<Fine.Event>, k: Key)
    requires Fine.Runs(s, es)
    decreases |es|
  {
    es != [] && (PutsOff(s, es[0], k) || PutOff(Fine.Apply(s, es[0]), es[1..], k))
  }

  // ----- A key put off was not finished, at some moment of the run -----

  ghost predicate WasOpen(s: State, es: seq<Fine.Event>, k: Key)
    requires Fine.Runs(s, es)
    decreases |es|
  {
    k !in s.finished || (es != [] && WasOpen(Fine.Apply(s, es[0]), es[1..], k))
  }

  /** No call has found the key absent from the finished tree, or made it so. */
  ghost predicate NoneLookedUp(s: State, k: Key) {
    forall c :: c in s.calls && KeyOf(c.job) == k ==> c.ReadFinished? || c.MoveForRetry?
  }

  lemma LookUpStep(s: State, e: Fine.Event, k: Key)
    requires Fine.Enabled(s, e) && k in s.finished && NoneLookedUp(s, k)
    ensures !PutsOff(s, e, k)
    ensures k in Fine.Apply(s, e).finished ==> NoneLookedUp(Fine.Apply(s, e), k)
  {
    if e.Advance? {
      assert s.calls[e.call] in s.calls;
    }
  }

  lemma {:induction false} PutOffWasOpen(s: State, es: seq<Fine.Event>, k: Key)
    requires Fine.Runs(s, es) && NoneLookedUp(s, k) && PutOff(s, es, k)
    ensures WasOpen(s, es, k)
    decreases |es|
  {
    if k in s.finished {
      LookUpStep(s, es[0], k);
      if k in Fine.Apply(s, es[0]).finished {
        PutOffWasOpen(Fine.Apply(s, es[0]), es[1..], k);
      }
    }
  }

  /** A proof present where no call is in progress is never gone. */
  lemma {:induction false} SafeNeverOpen(s: State, es: seq<Fine.Event>, k: Key)
    requires Fine.Inv(s) && Exposure.HasFinal(s, k) && !Exposure.AtRisk(s, k) && Fine.Runs(s, es)
    ensures !WasOpen(s, es, k)
    decreases |es|
  {
    if es != [] {
      Exposure.SafeStep(s, es[0], k);
      Fine.InvStep(s, es[0]);
      SafeNeverOpen(Fine.Apply(s, es[0]), es[1..], k);
    }
  }

  /** Open at some moment, and never failed in the run: then not failed at its end. */
  lemma {:induction false} OpenNotFailed(s: State, es: seq<Fine.Event>, ks: set<Key>, k: Key)
    requires Fine.Runs(s, es) && k in ks && Failures(s, es, ks) == 0 && WasOpen(s, es, k)
    ensures k in Fine.After(s, es).finished ==> !Fine.After(s, es).finished[k].Failed?
    decreases |es|
  {
    if k !in s.finished {
      FailRun(s, es, ks, k);
    } else {
      OpenNotFailed(Fine.Apply(s, es[0]), es[1..], ks, k);
    }
  }

  // ----- A key put off was accepted -----

  lemma PutsOffAccepted(s: State, e: Fine.Event, k: Key)
    requires FineAccounting.Remembers(s) && Fine.Enabled(s, e) && PutsOff(s, e, k)
    ensures k in Accepted(s)
  {
    var c := s.calls[e.call];
    if c.SendJob? {
      Sums.SumMember(s.calls, e.call, SendFor(k));
    }
  }

  lemma {:induction false} PutOffAccepted(s: State, es: seq<Fine.Event>, k: Key)
    requires Fine.Inv(s) && FineAccounting.Remembers(s) && Fine.Runs(s, es) && PutOff(s, es, k)
    ensures k in Accepted(Fine.After(s, es))
    decreases |es|
  {
    if PutsOff(s, es[0], k) {
      PutsOffAccepted(s, es[0], k);
      Fine.Conservation(s, es);
    } else {
      Fine.InvStep(s, es[0]);
      FineAccounting.RemembersStep(s, es[0]);
      PutOffAccepted(Fine.Apply(s, es[0]), es[1..], k);
    }
  }

  lemma WellRemembers(s: State)
    requires Well(s)
    ensures FineAccounting.Remembers(s)
  {
    forall k | k !in Accepted(s) ensures Drivers(s, k) == 0 {
      assert Drivers(s, k) <= if k in s.queue then 1 else 0;
    }
  }

  // ----- Turns -----

  /**
   One turn: a healthy fine run, any calls of any clients in it, in which the client was
   put off on some blob of its list, and which leaves the engine idle.
   */
  ghost predicate Turn(s: State, t: State, blobs: seq<Blob>, es: seq<Fine.Event>) {
    && HealthyRun(s, es)
    && Fine.After(s, es) == t
    && Drain.Idle(t)
    && exists b :: b in blobs && PutOff(s, es, KeyFor(s, b))
  }

  /** The blob the client was put off on had no proof before, and has one after unless proving failed. */
  lemma PutOffProves(s: State, es: seq<Fine.Event>, b: Blob, ks: set<Key>)
    requires Well(s) && HealthyRun(s, es) && Drain.Idle(Fine.After(s, es)) && PutOff(s, es, KeyFor(s, b))
    requires KeyFor(s, b) in ks
    ensures !Proven(s, b)
    ensures Failures(s, es, ks) == 0 ==> Proven(Fine.After(s, es), b)
  {
    var t, k := Fine.After(s, es), KeyFor(s, b);
    PutOffWasOpen(s, es, k);
    if Proven(s, b) {
      Exposure.AtRestNoRisk(s, [], k);
      SafeNeverOpen(s, es, k);
    }
    WellRemembers(s);
    PutOffAccepted(s, es, k);
    RunKeepsWell(s, es);
    FineEnvStays(s, es);
    if Failures(s, es, ks) == 0 {
      OpenNotFailed(s, es, ks, k);
      assert k in t.finished && Fine.FinishedStatus(t.finished[k]);
    }
  }

  /** A turn loses no proof, and finishes a blob of the list or counts a failure. */
  lemma TurnProgress(s: State, t: State, blobs: seq<Blob>, es: seq<Fine.Event>)
    requires Well(s) && Turn(s, t, blobs, es)
    ensures Well(t) && t.env == s.env && Unfinished(t, blobs) <= Unfinished(s, blobs)
    ensures Failures(s, es, KeysOf(s, blobs)) == 0 ==> Unfinished(t, blobs) < Unfinished(s, blobs)
  {
    RunKeepsWell(s, es);
    FineEnvStays(s, es);
    forall x | x in blobs && Proven(s, x) ensures Proven(t, x) {
      FineProvenStays(s, es, x);
    }
    UnfinishedShrinks(s, t, blobs);
    var b :| b in blobs && PutOff(s, es, KeyFor(s, b));
    PutOffProves(s, es, b, KeysOf(s, blobs));
    if Failures(s, es, KeysOf(s, blobs)) == 0 {
      assert KeyFor(s, b) in Unfinished(s, blobs) && KeyFor(s, b) !in Unfinished(t, blobs);
    }
  }

  /** Turns one after the other. */
  ghost predicate Turns(states: seq<State>, runs: seq<seq<Fine.Event>>, blobs: seq<Blob>)
    decreases |runs|
  {
    && |states| == |runs| + 1
    && (runs == [] || (Turn(states[0], states[1], blobs, runs[0]) && Turns(states[1..], runs[1..], blobs)))
  }

  ghost function TurnFailures(states: seq<State>, runs: seq<seq<Fine.Event>>, blobs: seq<Blob>): nat
    requires Turns(states, runs, blobs)
    decreases |runs|
  {
    if runs == [] then 0
    else Failures(states[0], runs[0], KeysOf(states[0], blobs)) + TurnFailures(states[1..], runs[1..], blobs)
  }

  /**
   Convergence on several threads: the turns in which the client is put off are at most
   as many as there were distinct unfinished anchors and failed proving attempts of the
   list; after that many every blob has its proof.
   */
  lemma {:induction false} TurnsConverge(states: seq<State>, runs: seq<seq<Fine.Event>>, blobs: seq<Blob>)
    requires Turns(states, runs, blobs) && Well(states[0])
    ensures Well(states[|runs|])
    ensures |runs| + |Unfinished(states[|runs|], blobs)|
         <= |Unfinished(states[0], blobs)| + TurnFailures(states, runs, blobs)
    decreases |runs|
  {
    if runs != [] {
      var s, t := states[0], states[1];
      TurnProgress(s, t, blobs, runs[0]);
      SubsetSize(Unfinished(t, blobs), Unfinished(s, blobs));
      if Failures(s, runs[0], KeysOf(s, blobs)) == 0 {
        SmallerSet(Unfinished(t, blobs), Unfinished(s, blobs));
      }
      TurnsConverge(states[1..], runs[1..], blobs);
    }
  }

  // ----- And then the client is served -----

  /** Every answer the run gives for the key is this one. */
  ghost predicate OnlyAnswers(s: State, es: seq<Fine.Event>, k: Key, a: Answer)
    requires Fine.Runs(s, es)
    decreases |es|
  {
    es == [] ||
    (&& (AnswersFor(s, es[0], k) ==> Next(s, s.calls[es[0].call]) == Answers(a))
     && OnlyAnswers(Fine.Apply(s, es[0]), es[1..], k, a))
  }

  /** No call for the key is past its first look. */
  ghost predicate NonePast(s: State, k: Key) {
    forall c :: c in s.calls && KeyOf(c.job) == k ==> c.ReadFinished?
  }

  lemma ServedStep(s: State, e: Fine.Event, k: Key, p: Proof)
    requires Fine.Enabled(s, e) && NonePast(s, k) && Lookup(s.finished, k) == Some(ZkProofFinished(p))
    ensures AnswersFor(s, e, k) ==> Next(s, s.calls[e.call]) == Answers(HaveProof(p))
    ensures NonePast(Fine.Apply(s, e), k)
  {
    if e.Advance? {
      assert s.calls[e.call] in s.calls;
    }
  }

  /** Where no call is in progress and the key has its proof, every later call for it is given that proof. */
  lemma {:induction false} ServedAlways(s: State, es: seq<Fine.Event>, k: Key, p: Proof)
    requires Fine.Inv(s) && NonePast(s, k) && Lookup(s.finished, k) == Some(ZkProofFinished(p))
    requires !Exposure.AtRisk(s, k) && Fine.Runs(s, es)
    ensures OnlyAnswers(s, es, k, HaveProof(p))
    decreases |es|
  {
    if es != [] {
      ServedStep(s, es[0], k, p);
      Exposure.SafeStep(s, es[0], k);
      Fine.InvStep(s, es[0]);
      ServedAlways(Fine.Apply(s, es[0]), es[1..], k, p);
    }
  }

  /** After as many turns as the bound allows, all later calls for the list are given its proofs. */
  lemma ServedAfterTurns(states: seq<State>, runs: seq<seq<Fine.Event>>, blobs: seq<Blob>, b: Blob, es: seq<Fine.Event>)
    requires Turns(states, runs, blobs) && Well(states[0])
    requires |runs| == |Unfinished(states[0], blobs)| + TurnFailures(states, runs, blobs)
    requires b in blobs && Fine.Runs(states[|runs|], es)
    ensures var s := states[|runs|];
            Proven(s, b) && OnlyAnswers(s, es, KeyFor(s, b), HaveProof(s.finished[KeyFor(s, b)].proof))
  {
    var s := states[|runs|];
    TurnsConverge(states, runs, blobs);
    assert Unfinished(s, blobs) == {};
    assert !Proven(s, b) ==> KeyFor(s, b) in Unfinished(s, blobs);
    Exposure.AtRestNoRisk(s, [], KeyFor(s, b));
    ServedAlways(s, es, KeyFor(s, b), s.finished[KeyFor(s, b)].proof);
  }
}
