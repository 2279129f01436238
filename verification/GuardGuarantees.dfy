/**
  What the guard protocol guarantees in every interleaving: the job lifecycle ends, its log
  determines its state, only the lease holder ends a job, and a published copy keeps its object.
*/
module GuardGuarantees {
  import opened Wrappers
  import opened GuardJobs
  import opened GuardProtocol

  // ----- Lifecycle and log -----

  /** Attempts are bounded, `active` is exactly "queued or processing", and requests identify jobs. */
  lemma Lifecycle(trace: seq<Action>, now: int, id: nat)
    requires id in Run(trace, now).store.jobs
    ensures var job := Run(trace, now).store.jobs[id];
            && job.attempts <= MAX_CLAIMS
            && (job.status == Queued ==> job.attempts <= MAX_CLAIMS - 1)
            && (job.active <==> job.status == Queued || job.status == Processing)
            && (job.lease.Some? <==> job.status == Processing)
  {
    hide Run;
    RunKeepsInv(trace, now);
    JobOf(Run(trace, now).store, id);
  }

  /** A company has at most one active job, and a request key is used for at most one job. */
  lemma OneActiveJob(trace: seq<Action>, now: int, x: nat, y: nat)
    requires var jobs := Run(trace, now).store.jobs; x in jobs && y in jobs
    ensures var jobs := Run(trace, now).store.jobs;
            && (jobs[x].request == jobs[y].request ==> x == y)
            && (jobs[x].active && jobs[y].active && jobs[x].request.company == jobs[y].request.company ==> x == y)
  {
    hide Run;
    RunKeepsInv(trace, now);
  }

  /**
    Admission is idempotent: a request key that has a job is answered with that job, or refused when
    it asks for something else; it never creates a second one.
  */
  lemma ResubmissionIsReplayed(trace: seq<Action>, now: int, id: nat, other: nat, fingerprint: nat, kind: Kind, at: int)
    requires id in Run(trace, now).store.jobs && other !in Run(trace, now).store.jobs
    ensures var s := Run(trace, now).store;
            Submit(s, other, s.jobs[id].request, fingerprint, kind, at, true) ==
              if s.jobs[id].kind == kind && s.jobs[id].fingerprint == fingerprint then Replayed(id) else RequestConflict
  {
    hide Run;
    RunKeepsInv(trace, now);
    var s := Run(trace, now).store;
    assert id in FindRequest(s, s.jobs[id].request);
    assert forall x :: x in FindRequest(s, s.jobs[id].request) ==> x == id;
  }

  lemma {:induction false} CountQueued(n: nat)
    ensures forall kind :: multiset(QueuedTimes(n))[kind] == if kind == QueuedEvent then n else 0
  {
    if n > 0 {
      CountQueued(n - 1);
      assert QueuedTimes(n) == QueuedTimes(n - 1) + [QueuedEvent];
      assert multiset(QueuedTimes(n)) == multiset(QueuedTimes(n - 1)) + multiset([QueuedEvent]);
    }
  }

  function Terminal(history: seq<EventKind>): nat {
    multiset(history)[CompletedEvent] + multiset(history)[FailedEvent] + multiset(history)[CancelledEvent]
  }

  /**
    The event log determines the state: exactly one terminal event iff the job is inactive, and it
    names the final status; the `queued` events count the attempts.
  */
  lemma LogDeterminesState(trace: seq<Action>, now: int, id: nat)
    requires id in Run(trace, now).store.jobs
    ensures var job := Run(trace, now).store.jobs[id];
            var history := History(Run(trace, now).store.events, id);
            && Terminal(history) == (if job.active then 0 else 1)
            && (job.status == Completed <==> CompletedEvent in history)
            && (job.status == Failed <==> FailedEvent in history)
            && (job.status == Cancelled <==> CancelledEvent in history)
            && (job.status == Queued ==> multiset(history)[QueuedEvent] == job.attempts + 1)
            && (job.status in {Processing, Completed, Failed} ==> multiset(history)[QueuedEvent] == job.attempts)
            && (job.status == Cancelled ==> multiset(history)[QueuedEvent] in {job.attempts, job.attempts + 1})
  {
    hide Run, History, LogOk;
    RunKeepsInv(trace, now);
    var s := Run(trace, now).store;
    assert RowOk(s, id);
    LogCounts(s.jobs[id], History(s.events, id));
  }

  lemma LogCounts(job: Job, history: seq<EventKind>)
    requires JobOk(job) && LogOk(job, history)
    ensures Terminal(history) == (if job.active then 0 else 1)
    ensures job.status == Completed <==> CompletedEvent in history
    ensures job.status == Failed <==> FailedEvent in history
    ensures job.status == Cancelled <==> CancelledEvent in history
    ensures job.status == Queued ==> multiset(history)[QueuedEvent] == job.attempts + 1
    ensures job.status in {Processing, Completed, Failed} ==> multiset(history)[QueuedEvent] == job.attempts
    ensures job.status == Cancelled ==> multiset(history)[QueuedEvent] in {job.attempts, job.attempts + 1}
  {
    hide QueuedTimes;
    var n := |history| - |EndOf(job.status)|;
    CountQueued(n);
    assert multiset(history) == multiset(QueuedTimes(n)) + multiset(EndOf(job.status));
    assert forall kind :: kind in history <==> kind in multiset(history);
  }

  /** A completed scan has as many findings as it says, and no other job has findings. */
  lemma FindingsMatch(trace: seq<Action>, now: int, id: nat)
    requires id in Run(trace, now).store.jobs
    ensures var s := Run(trace, now).store;
            var count := |FindingsOf(s, id)|;
            count == (if s.jobs[id].status == Completed then s.jobs[id].findingCount else 0)
    ensures var s := Run(trace, now).store; s.jobs[id].kind == Sanitize ==> id !in s.findings
  {
    hide Run;
    RunKeepsInv(trace, now);
    assert RowOk(Run(trace, now).store, id);
  }

  // ----- Progress -----

  /** How many more status changes a job can go through. */
  function Rank(job: Job): int {
    if !job.active then 0
    else 2 * (MAX_CLAIMS - job.attempts) + if job.status == Processing then 1 else 0
  }

  predicate Moved(a: Job, b: Job) {
    b.status != a.status || b.attempts != a.attempts || b.active != a.active
  }

  lemma ActiveRank(s: Store, id: nat)
    requires StoreOk(s) && id in s.jobs
    ensures 0 <= Rank(s.jobs[id]) <= 2 * MAX_CLAIMS
  {
    JobOf(s, id);
  }

  /** The write a job ends by: its own lease holder's, within the lease, or recover's after it. */
  ghost predicate EndedBy(s: State, action: Action, id: nat, status: Status) {
    match status
    case Completed =>
      || (action.PublishScan? && action.authorised && Claimed(s.store, id, action.token, action.at))
      || (action.PublishSanitized? && action.authorised && action.admitted && Claimed(s.store, id, action.token, action.at))
    case Failed =>
      || (action.FailJob? && Claimed(s.store, id, action.token, action.at))
      || (action.RecoverJob? && action.read.job == id && id in s.store.jobs && s.store.jobs[id].attempts == MAX_CLAIMS &&
          s.store.jobs[id].status == Processing && s.store.jobs[id].lease == Some(action.read.lease) &&
          s.store.jobs[id].leaseExpiresAt <= action.at)
    case Cancelled => action.CancelJob? && action.id == id && action.authorised
    case Queued => false
    case Processing => false
  }

  /** What one step may do to one job. */
  ghost predicate JobStep(s: State, action: Action, id: nat, a: Job, b: Job) {
    && b.kind == a.kind
    && (a.outputDigest.Some? ==> b.outputDigest == a.outputDigest)
    && (!a.active ==> !b.active && b.status == a.status)
    && (if Moved(a, b) then Rank(b) < Rank(a) else Rank(b) == Rank(a))
    && (a.active && !b.active ==> EndedBy(s, action, id, b.status))
  }

  lemma RecoveryIsJobStep(s: State, action: Action, id: nat)
    requires id in s.store.jobs && JobOk(s.store.jobs[id]) && action.RecoverJob?
    requires action.read in s.observed ==> ReadOk(s, action.read)
    ensures id in Step(s, action).store.jobs
    ensures JobStep(s, action, id, s.store.jobs[id], Step(s, action).store.jobs[id])
  {
  }

  lemma PinIsJobStep(s: State, action: Action, id: nat)
    requires id in s.store.jobs && action.PinDigest?
    requires action.token in s.workers ==> WorkerOk(s, action.token)
    ensures id in Step(s, action).store.jobs
    ensures JobStep(s, action, id, s.store.jobs[id], Step(s, action).store.jobs[id])
  {
  }

  lemma LeaseIsJobStep(s: State, action: Action, id: nat)
    requires id in s.store.jobs && JobOk(s.store.jobs[id]) && (action.ClaimJob? || action.CancelJob? || action.FailJob?)
    ensures id in Step(s, action).store.jobs
    ensures JobStep(s, action, id, s.store.jobs[id], Step(s, action).store.jobs[id])
  {
  }

  lemma PublicationIsJobStep(s: State, action: Action, id: nat)
    requires id in s.store.jobs && JobOk(s.store.jobs[id])
    requires action.PublishScan? || action.PublishSanitized? || action.BeginRemoval?
    ensures id in Step(s, action).store.jobs
    ensures JobStep(s, action, id, s.store.jobs[id], Step(s, action).store.jobs[id])
  {
  }

  lemma SubmissionIsJobStep(s: State, action: Action, id: nat)
    requires id in s.store.jobs && action.SubmitJob?
    ensures id in Step(s, action).store.jobs && Step(s, action).store.jobs[id] == s.store.jobs[id]
  {
    hide FindRequest, CreatedSince, Busy;
  }

  predicate WritesNoJob(action: Action) {
    || action.Tick? || action.ReadExpired? || action.IssuePut? || action.LandOwnPut? || action.LandLatePut?
    || action.SelectCleanup? || action.IssueDelete? || action.LandDelete? || action.RemoveObject? || action.RemoveRow?
  }

  lemma SameJobs(s: State, action: Action)
    requires WritesNoJob(action)
    ensures Step(s, action).store == s.store
  {
  }

  lemma StepIsJobStep(s: State, action: Action, id: nat)
    requires Inv(s) && id in s.store.jobs
    ensures id in Step(s, action).store.jobs
    ensures JobStep(s, action, id, s.store.jobs[id], Step(s, action).store.jobs[id])
  {
    JobOf(s.store, id);
    if action.RecoverJob? && action.read in s.observed { assert ReadOk(s, action.read); }
    if action.PinDigest? && action.token in s.workers { assert WorkerOk(s, action.token); }
    hide *;
    if WritesNoJob(action) { SameJobs(s, action); UnchangedIsJobStep(s, action, id); }
    else if action.RecoverJob? { RecoveryIsJobStep(s, action, id); }
    else if action.PinDigest? { PinIsJobStep(s, action, id); }
    else if action.SubmitJob? { SubmissionIsJobStep(s, action, id); UnchangedIsJobStep(s, action, id); }
    else if action.ClaimJob? || action.CancelJob? || action.FailJob? { LeaseIsJobStep(s, action, id); }
    else { OnlyPublicationsLeft(action); PublicationIsJobStep(s, action, id); }
  }

  lemma OnlyPublicationsLeft(action: Action)
    requires !WritesNoJob(action) && !action.RecoverJob? && !action.PinDigest? && !action.SubmitJob?
    requires !action.ClaimJob? && !action.CancelJob? && !action.FailJob?
    ensures action.PublishScan? || action.PublishSanitized? || action.BeginRemoval?
  {
  }

  lemma UnchangedIsJobStep(s: State, action: Action, id: nat)
    requires id in s.store.jobs
    ensures JobStep(s, action, id, s.store.jobs[id], s.store.jobs[id])
  {
  }

  /** How often the job's status or attempts changed since it was admitted. */
  ghost function Changes(trace: seq<Action>, now: int, id: nat): nat {
    if trace == [] then 0
    else
      var before, after := Run(trace[..|trace| - 1], now).store.jobs, Run(trace, now).store.jobs;
      Changes(trace[..|trace| - 1], now, id) + if id in before && id in after && Moved(before[id], after[id]) then 1 else 0
  }

  /** However claims, crashes, lost leases and retries interleave, a job changes at most six times. */
  lemma {:induction false} LifecycleEnds(trace: seq<Action>, now: int, id: nat)
    ensures Changes(trace, now, id) <= 2 * MAX_CLAIMS
    ensures id in Run(trace, now).store.jobs ==> Changes(trace, now, id) + Rank(Run(trace, now).store.jobs[id]) <= 2 * MAX_CLAIMS
    ensures id !in Run(trace, now).store.jobs ==> Changes(trace, now, id) == 0
  {
    hide Step, Inv, StoreOk, Rank, Moved, EndedBy;
    RunStoreOk(trace, now);
    if id in Run(trace, now).store.jobs {
      ActiveRank(Run(trace, now).store, id);
    }
    if trace != [] {
      var prior := trace[..|trace| - 1];
      LifecycleEnds(prior, now, id);
      RunKeepsInv(prior, now);
      if id in Run(prior, now).store.jobs {
        StepIsJobStep(Run(prior, now), trace[|trace| - 1], id);
      }
    }
  }

  lemma RunStoreOk(trace: seq<Action>, now: int)
    ensures StoreOk(Run(trace, now).store)
  {
    hide StoreOk;
    RunKeepsInv(trace, now);
  }

  // ----- Who ends a job -----

  /** Only the current token holder completes or fails a job; recover fails it only after three expired attempts. */
  lemma OnlyHolderEnds(trace: seq<Action>, now: int, action: Action, id: nat)
    requires var s := Run(trace, now); id in s.store.jobs && id in Step(s, action).store.jobs && s.store.jobs[id].active
    requires !Step(Run(trace, now), action).store.jobs[id].active
    ensures EndedBy(Run(trace, now), action, id, Step(Run(trace, now), action).store.jobs[id].status)
  {
    hide Run;
    RunKeepsInv(trace, now);
    hide Inv, EndedBy, Step;
    StepIsJobStep(Run(trace, now), action, id);
  }

  /** What recover decides on its old read is what it would decide on the current document. */
  lemma RecoverDecidesRight(trace: seq<Action>, now: int, read: Read, at: int)
    requires var s := Run(trace, now); read in s.observed && Recovered(s, read, at) != s
    ensures var s := Run(trace, now);
            var t := Recovered(s, read, at);
            && read.job in s.store.jobs && read.job in t.store.jobs
            && s.store.jobs[read.job].attempts == read.attempts
            && t.store.jobs[read.job].status == (if s.store.jobs[read.job].attempts >= MAX_CLAIMS then Failed else Queued)
  {
    hide Run;
    RunKeepsInv(trace, now);
    assert ReadOk(Run(trace, now), read);
  }

  /** What no step takes back. */
  predicate Settled(s: State, t: State, id: nat) {
    && id in s.store.jobs && id in t.store.jobs
    && t.store.jobs[id].kind == s.store.jobs[id].kind
    && (s.store.jobs[id].outputDigest.Some? ==> t.store.jobs[id].outputDigest == s.store.jobs[id].outputDigest)
    && (!s.store.jobs[id].active ==> !t.store.jobs[id].active && t.store.jobs[id].status == s.store.jobs[id].status)
  }

  lemma StepSettles(s: State, action: Action, id: nat)
    requires Inv(s) && id in s.store.jobs
    ensures Settled(s, Step(s, action), id)
  {
    hide Inv, Step;
    StepIsJobStep(s, action, id);
  }

  /** From any reachable state on: an inactive job never becomes active again, and a pinned digest stays. */
  lemma {:induction false} InactiveForever(trace: seq<Action>, more: seq<Action>, now: int, id: nat)
    requires id in Run(trace, now).store.jobs
    ensures Settled(Run(trace, now), Run(trace + more, now), id)
  {
    hide Step, Inv;
    if more == [] {
      assert trace + more == trace;
    } else {
      var last := |more| - 1;
      var before := trace + more[..last];
      InactiveForever(trace, more[..last], now, id);
      assert (trace + more)[..|trace + more| - 1] == before;
      RunKeepsInv(before, now);
      StepSettles(Run(before, now), more[last], id);
    }
  }

  // ----- The object store -----

  /** All PUTs ever issued to a job's key carry the one digest pinned in the job. */
  lemma PutsAgree(trace: seq<Action>, now: int, p: Put, q: Put)
    requires p in Run(trace, now).puts && q in Run(trace, now).puts && p.job == q.job
    ensures p.digest == q.digest
    ensures p.job in Run(trace, now).store.jobs && Run(trace, now).store.jobs[p.job].outputDigest == Some(p.digest)
  {
    hide Run;
    RunKeepsInv(trace, now);
    assert Digest(Run(trace, now), p.job, p.digest) && Digest(Run(trace, now), q.job, q.digest);
  }

  /** Cleanup never has a DELETE under way for a job with a derived file, whatever happens between its check and the DELETE. */
  lemma CleanupSparesCopies(trace: seq<Action>, now: int)
    ensures Run(trace, now).doomed !! Run(trace, now).copies
  {
    hide Run;
    RunKeepsInv(trace, now);
  }

  /** A copy whose removal has not begun is there, and its object holds the pinned bytes. */
  predicate Intact(s: State, id: nat) {
    id in s.copies && id in s.objects && id in s.store.jobs && s.store.jobs[id].outputDigest == Some(s.objects[id])
  }

  lemma CopyIsIntact(s: State, id: nat)
    requires Inv(s) && id in s.copies && id !in s.removing
    ensures Intact(s, id)
  {
    assert CopyOk(s, id);
    assert Digest(s, id, s.objects[id]);
  }

  lemma StepKeepsCopy(s: State, action: Action, id: nat)
    requires id in s.copies && id !in Step(s, action).removing
    ensures id in Step(s, action).copies && id !in s.removing
  {
    hide Submit, Cancel, Recover, Terminate, Publish, PinOutput, PublishCopy, Tombstone, Claim, Claimable;
  }

  /**
    Once a copy is published it stays, with the same bytes, through every later step of any worker,
    late PUT or cleanup, until its own removal begins.
  */
  lemma {:induction false} PublishedCopySurvives(trace: seq<Action>, more: seq<Action>, now: int, id: nat)
    requires id in Run(trace, now).copies && id !in Run(trace + more, now).removing
    ensures id !in Run(trace, now).removing && Intact(Run(trace, now), id) && Intact(Run(trace + more, now), id)
    ensures Run(trace + more, now).objects[id] == Run(trace, now).objects[id]
  {
    hide Step, Inv;
    CopyStays(trace, more, now, id);
    RunKeepsInv(trace, now);
    RunKeepsInv(trace + more, now);
    CopyIsIntact(Run(trace, now), id);
    CopyIsIntact(Run(trace + more, now), id);
    InactiveForever(trace, more, now, id);
  }

  lemma {:induction false} CopyStays(trace: seq<Action>, more: seq<Action>, now: int, id: nat)
    requires id in Run(trace, now).copies && id !in Run(trace + more, now).removing
    ensures id in Run(trace + more, now).copies && id !in Run(trace, now).removing
  {
    hide Step;
    if more == [] {
      assert trace + more == trace;
    } else {
      var last := |more| - 1;
      var before := trace + more[..last];
      assert (trace + more)[..|trace + more| - 1] == before;
      if id in Run(before, now).removing {
        RemovingGrows(Run(before, now), more[last], id);
      }
      CopyStays(trace, more[..last], now, id);
      StepKeepsCopy(Run(before, now), more[last], id);
    }
  }

  lemma RemovingGrows(s: State, action: Action, id: nat)
    requires id in s.removing
    ensures id in Step(s, action).removing
  {
    hide Submit, Cancel, Recover, Terminate, Publish, PinOutput, PublishCopy, Tombstone, Claim, Claimable;
  }
}
