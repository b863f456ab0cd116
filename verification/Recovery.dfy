/**
 The loop that runs once at start-up and is meant to send every unfinished job of
 the queue tree back to the worker. It decodes the tree's key as a Job and unwraps
 the result, although the key is an encoded Anchor.
 */
module Recovery {
  import opened Jobs
  import Bincode

  /** One entry of the queue tree; the status is None when its bytes do not decode. */
  datatype Entry = Entry(key: Bytes, status: Option<JobStatus>)

  datatype Restart = Sent(jobs: seq<Job>) | Panicked

  /** The statuses the loop sends back to the worker. */
  predicate Restartable(status: Option<JobStatus>) {
    status.Some? && (status.value.LocalZkProofPending? || status.value.RemoteZkProofPending?)
  }

  /** The jobs the entries with a restartable status name, in order. */
  function RestartJobs(entries: seq<Entry>): seq<Job>
    requires forall e :: e in entries ==> Bincode.DecodeJob(e.key).Some?
  {
    if entries == [] then []
    else
      var e := entries[|entries| - 1];
      RestartJobs(entries[..|entries| - 1])
      + (if Restartable(e.status) then [Bincode.DecodeJob(e.key).value] else [])
  }

  ghost predicate AllDecode(entries: seq<Entry>) {
    forall e :: e in entries ==> Bincode.DecodeJob(e.key).Some?
  }

  /** What the loop sends to the worker's channel, and whether it comes to its end. */
  function Run(entries: seq<Entry>): (r: Restart)
    ensures r.Sent? <==> AllDecode(entries)
    ensures r.Sent? ==> r.jobs == RestartJobs(entries)
  {
    if forall e :: e in entries ==> Bincode.DecodeJob(e.key).Some? then Sent(RestartJobs(entries)) else Panicked
  }

  method RestartUnfinished(entries: seq<Entry>) returns (r: Restart)
    ensures r == Run(entries)
  {
    var jobs := [];
    for i := 0 to |entries|
      invariant AllDecode(entries[..i])
      invariant jobs == RestartJobs(entries[..i])
    {
      var e := entries[i];
      assert e in entries && entries[..i + 1] == entries[..i] + [e];
      var job := Bincode.DecodeJob(e.key);
      if job.None? {
        return Panicked;
      }
      assert entries[..i + 1][..i] == entries[..i];
      if Restartable(e.status) {
        jobs := jobs + [job.value];
      }
    }
    assert entries[..|entries|] == entries;
    r := Sent(jobs);
  }

  /**
   With the keys the service writes, the loop gets past a queue exactly when there
   is nothing in it; no job is ever sent.
   */
  lemma OnlyEmptyQueueRestarts(entries: seq<Entry>)
    requires forall e :: e in entries ==> exists a: Anchor :: e.key == Bincode.EncodeAnchor(a)
    ensures Run(entries) == if entries == [] then Sent([]) else Panicked
  {
    if entries != [] {
      var e := entries[0];
      assert e in entries;
      var a: Anchor :| e.key == Bincode.EncodeAnchor(a);
      Bincode.AnchorNeverDecodesAsJob(a);
    }
  }

  /** The entry's key decodes to the job. */
  ghost predicate NamesJob(e: Entry, job: Job) {
    Bincode.DecodeJob(e.key) == Some(job)
  }

  /** The statuses the service keeps in its queue. */
  predicate Queued(status: Option<JobStatus>) {
    && status.Some?
    && (|| status.value.LocalZkProofPending?
        || status.value.RemoteZkProofRequesting?
        || status.value.RemoteZkProofPending?)
  }

  /** A job is local, or waits for the network under an id. */
  ghost predicate LocalOrWaiting(e: Entry) {
    e.status == Some(LocalZkProofPending) || exists id: RequestId :: e.status == Some(RemoteZkProofPending(id))
  }

  lemma RestartableIff(e: Entry)
    ensures Restartable(e.status) <==> LocalOrWaiting(e)
  {
    if Restartable(e.status) && e.status.value.RemoteZkProofPending? {
      assert e.status == Some(RemoteZkProofPending(e.status.value.id));
    }
  }

  /** A job is sent exactly if an entry names it that is local or waiting. */
  lemma {:induction false} SentIff(entries: seq<Entry>, job: Job)
    requires AllDecode(entries)
    ensures job in RestartJobs(entries) <==> exists e :: e in entries && LocalOrWaiting(e) && NamesJob(e, job)
    decreases |entries|
  {
    if entries != [] {
      var n := |entries| - 1;
      SentIff(entries[..n], job);
      RestartableIff(entries[n]);
      assert entries == entries[..n] + [entries[n]];
    }
  }

  /** No more jobs are sent than there are entries, and as many exactly if every entry is local or waiting. */
  lemma {:induction false} SentCount(entries: seq<Entry>)
    requires AllDecode(entries)
    ensures |RestartJobs(entries)| <= |entries|
    ensures |RestartJobs(entries)| == |entries| <==> forall e :: e in entries ==> LocalOrWaiting(e)
    ensures |RestartJobs(entries)| == |entries|
            ==> forall i :: 0 <= i < |entries| ==> NamesJob(entries[i], RestartJobs(entries)[i])
    decreases |entries|
  {
    if entries != [] {
      var n := |entries| - 1;
      SentCount(entries[..n]);
      RestartableIff(entries[n]);
      assert entries == entries[..n] + [entries[n]];
    }
  }

  /**
   Even had all keys been encoded Jobs, the loop would not restart the jobs that were
   being requested: over any queue it would send every entry's job, in order, exactly
   if no status is RemoteZkProofRequesting, and a job under that status only if another
   entry names it too.
   */
  lemma RequestingIsNeverSent(entries: seq<Entry>)
    requires AllDecode(entries) && forall e :: e in entries ==> Queued(e.status)
    ensures Run(entries).Sent?
    ensures var jobs := Run(entries).jobs;
            && (forall job :: job in jobs
                  <==> exists e :: e in entries && e.status != Some(RemoteZkProofRequesting) && NamesJob(e, job))
            && ((|jobs| == |entries| && forall i :: 0 <= i < |entries| ==> NamesJob(entries[i], jobs[i]))
                  <==> forall e :: e in entries ==> e.status != Some(RemoteZkProofRequesting))
  {
    forall e | e in entries ensures LocalOrWaiting(e) <==> e.status != Some(RemoteZkProofRequesting) {
      RestartableIff(e);
    }
    forall job
      ensures job in RestartJobs(entries)
         <==> exists e :: e in entries && e.status != Some(RemoteZkProofRequesting) && NamesJob(e, job)
    {
      SentIff(entries, job);
    }
    SentCount(entries);
  }
}
