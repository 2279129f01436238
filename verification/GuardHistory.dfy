/**
  What the stored guard jobs say about the run that stored them, and that every enabled write takes
  effect: submission, publication, failure, cancellation, recovery, pinning and cleanup.
*/
module GuardHistory {
  import opened Wrappers
  import opened GuardJobs
  import opened GuardProtocol
  import opened GuardGuarantees

  // ----- What one step leaves of a job -----

  /** An output digest belongs to a sanitization that cleanup will look at when it ends. */
  predicate PendingOk(job: Job) {
    job.outputDigest.Some? ==> job.kind == Sanitize && (job.cleanupPending || job.status == Completed)
  }

  /** What was submitted stays, and an output stays within the reach of cleanup. */
  predicate Kept(a: Job, b: Job) {
    && b.request == a.request && b.fingerprint == a.fingerprint && b.kind == a.kind && b.createdAt == a.createdAt
    && (PendingOk(a) ==> PendingOk(b))
  }

  /** The publication that completes a scan. */
  ghost predicate Publishes(s: State, action: Action, id: nat) {
    && action.PublishScan? && action.authorised && action.at <= s.now
    && KindOf(s, action.token) == Some(Scan) && s.workers[action.token].job == id && Claimed(s.store, id, action.token, action.at)
  }

  lemma FencedWriteKeeps(s: State, action: Action, id: nat)
    requires id in s.store.jobs && JobOk(s.store.jobs[id])
    requires action.ClaimJob? || action.CancelJob? || action.FailJob? || action.RecoverJob? || action.PinDigest?
    ensures id in Step(s, action).store.jobs && Kept(s.store.jobs[id], Step(s, action).store.jobs[id])
    ensures Step(s, action).store.findings == s.store.findings
  {
  }

  lemma PublicationKeeps(s: State, action: Action, id: nat)
    requires id in s.store.jobs && JobOk(s.store.jobs[id]) && (action.PublishScan? || action.PublishSanitized? || action.BeginRemoval?)
    ensures id in Step(s, action).store.jobs && Kept(s.store.jobs[id], Step(s, action).store.jobs[id])
    ensures !Publishes(s, action, id) ==> FindingsOf(Step(s, action).store, id) == FindingsOf(s.store, id)
  {
  }

  lemma SubmissionKeeps(s: State, action: Action, id: nat)
    requires action.SubmitJob?
    ensures id in s.store.jobs ==> id in Step(s, action).store.jobs && Step(s, action).store.jobs[id] == s.store.jobs[id]
    ensures id in Step(s, action).store.jobs && id !in s.store.jobs ==>
              var job := Step(s, action).store.jobs[id];
              job.kind == action.kind && PendingOk(job) &&
              action == SubmitJob(id, job.request, job.fingerprint, job.kind, job.createdAt, true)
    ensures Step(s, action).store.findings == s.store.findings
  {
    hide FindRequest, CreatedSince, Busy;
  }

  lemma OnlySubmissionCreates(s: State, action: Action, id: nat)
    requires id !in s.store.jobs && !action.SubmitJob?
    ensures id !in Step(s, action).store.jobs
  {
  }

  lemma StepKeeps(s: State, action: Action, id: nat)
    requires StoreOk(s.store) && id in s.store.jobs
    ensures id in Step(s, action).store.jobs && Kept(s.store.jobs[id], Step(s, action).store.jobs[id])
    ensures !Publishes(s, action, id) ==> FindingsOf(Step(s, action).store, id) == FindingsOf(s.store, id)
  {
    hide *;
    JobOf(s.store, id);
    KeptItself(s.store.jobs[id]);
    if WritesNoJob(action) { SameJobs(s, action); }
    else if action.SubmitJob? { SubmissionKeeps(s, action, id); SameFindings(s.store, Step(s, action).store, id); }
    else if action.ClaimJob? || action.CancelJob? || action.FailJob? || action.RecoverJob? || action.PinDigest? {
      FencedWriteKeeps(s, action, id);
      SameFindings(s.store, Step(s, action).store, id);
    } else {
      OnlyPublicationsLeft(action);
      PublicationKeeps(s, action, id);
    }
  }

  lemma KeptItself(job: Job)
    ensures Kept(job, job)
  {
  }

  lemma SameFindings(s: Store, t: Store, id: nat)
    requires t.findings == s.findings
    ensures FindingsOf(t, id) == FindingsOf(s, id)
  {
  }

  // ----- Submission -----

  /** Every job is as it was submitted, by an authorised request, and is there for that reason only. */
  lemma {:induction false} JobIsAsSubmitted(trace: seq<Action>, now: int, id: nat)
    requires id in Run(trace, now).store.jobs
    ensures var job := Run(trace, now).store.jobs[id];
            && PendingOk(job)
            && exists i :: 0 <= i < |trace| && id !in Run(trace[..i], now).store.jobs &&
                 trace[i] == SubmitJob(id, job.request, job.fingerprint, job.kind, job.createdAt, true)
  {
    hide Step, PendingOk, StoreOk;
    var n := |trace| - 1;
    if trace != [] {
      RunStoreOk(trace[..n], now);
      var s := Run(trace[..n], now);
      if id in s.store.jobs {
        JobIsAsSubmitted(trace[..n], now, id);
        StepKeeps(s, trace[n], id);
        var job := s.store.jobs[id];
        var i :| 0 <= i < n && id !in Run(trace[..n][..i], now).store.jobs &&
                 trace[i] == SubmitJob(id, job.request, job.fingerprint, job.kind, job.createdAt, true);
        assert trace[..n][..i] == trace[..i];
      } else {
        if !trace[n].SubmitJob? { OnlySubmissionCreates(s, trace[n], id); }
        SubmissionKeeps(s, trace[n], id);
      }
    }
  }

  /** The jobs of a company that were created in the minute before `at` or later. */
  function Recent(s: Store, company: nat, at: int): set<nat> {
    set x | x in s.jobs && s.jobs[x].request.company == company && at - 60_000 <= s.jobs[x].createdAt
  }

  /** What submit answers, for every store that a run can lead to. */
  lemma SubmitsExactly(s: Store, id: nat, request: Request, fingerprint: nat, kind: Kind, at: int, authorised: bool)
    requires StoreOk(s) && id !in s.jobs
    ensures var r := Submit(s, id, request, fingerprint, kind, at, authorised);
            var known := exists x :: x in s.jobs && s.jobs[x].request == request;
            var active := exists x :: x in s.jobs && s.jobs[x].request.company == request.company && s.jobs[x].active;
            && (r.Denied? <==> !authorised)
            && (r.Replayed? || r.RequestConflict? <==> authorised && known)
            && (r.RateLimited? <==> authorised && !known && |Recent(s, request.company, at)| >= 10)
            && (r.ActiveScanExists? <==> authorised && !known && |Recent(s, request.company, at)| < 10 && active)
            && (r.Created? <==> authorised && !known && |Recent(s, request.company, at)| < 10 && !active)
  {
    hide StoreOk;
    assert CreatedSince(s, request.company, at - RATE_WINDOW_MS) == Recent(s, request.company, at);
    assert FindRequest(s, request) != {} ==> exists x :: x in FindRequest(s, request);
    assert forall x :: x in s.jobs && s.jobs[x].request == request ==> x in FindRequest(s, request);
  }

  /** A new job is stored as it was asked for, and nothing else changes. */
  lemma SubmissionStores(s: Store, id: nat, request: Request, fingerprint: nat, kind: Kind, at: int)
    requires id !in s.jobs && Submit(s, id, request, fingerprint, kind, at, true).Created?
    ensures var t := Submit(s, id, request, fingerprint, kind, at, true).store;
            && t.findings == s.findings && t.events == s.events + [Event(id, QueuedEvent)]
            && t.jobs == s.jobs[id := Job(request, fingerprint, kind, at, Queued, true, 0, None, 0, 0, None, false)]
  {
    hide CreatedSince, FindRequest, Busy;
  }

  function CreatedWithin(s: Store, company: nat, from: int): set<nat> {
    set id | id in s.jobs && s.jobs[id].request.company == company && from <= s.jobs[id].createdAt <= from + 60_000
  }

  /** In every run, no closed minute holds more than ten jobs of a company. */
  lemma {:induction false} JobRate(trace: seq<Action>, now: int, company: nat, from: int)
    ensures |CreatedWithin(Run(trace, now).store, company, from)| <= 10
  {
    hide Step, StoreOk;
    if trace != [] {
      var s, last := Run(trace[..|trace| - 1], now), trace[|trace| - 1];
      JobRate(trace[..|trace| - 1], now, company, from);
      RunStoreOk(trace[..|trace| - 1], now);
      StepKeepsRate(s, last, company, from);
    }
  }

  lemma StepKeepsRate(s: State, action: Action, company: nat, from: int)
    requires StoreOk(s.store) && |CreatedWithin(s.store, company, from)| <= 10
    ensures |CreatedWithin(Step(s, action).store, company, from)| <= 10
  {
    hide Step, StoreOk;
    var t := Step(s, action);
    forall id | id in s.store.jobs ensures id in t.store.jobs && Kept(s.store.jobs[id], t.store.jobs[id]) {
      StepKeeps(s, action, id);
    }
    if t.store.jobs.Keys == s.store.jobs.Keys {
      assert CreatedWithin(t.store, company, from) == CreatedWithin(s.store, company, from);
    } else {
      var id :| id in t.store.jobs && id !in s.store.jobs;
      if !action.SubmitJob? { OnlySubmissionCreates(s, action, id); }
      NewJobKeepsRate(s, action, id, company, from);
    }
  }

  lemma NewJobKeepsRate(s: State, action: Action, id: nat, company: nat, from: int)
    requires |CreatedWithin(s.store, company, from)| <= 10
    requires action.SubmitJob? && id in Step(s, action).store.jobs && id !in s.store.jobs
    ensures |CreatedWithin(Step(s, action).store, company, from)| <= 10
  {
    hide FindRequest, Busy;
    var t := Step(s, action);
    var before, after := CreatedWithin(s.store, company, from), CreatedWithin(t.store, company, from);
    assert t.store.jobs == s.store.jobs[id := t.store.jobs[id]];
    if id in after {
      assert after == before + {id};
      assert before <= CreatedSince(s.store, company, action.at - RATE_WINDOW_MS);
      SubsetSize(before, CreatedSince(s.store, company, action.at - RATE_WINDOW_MS));
    } else {
      assert after == before;
    }
  }

  // ----- Publication -----

  /** The stored findings of a completed scan are those of the publication that completed it. */
  lemma {:induction false} FindingsArePublished(trace: seq<Action>, now: int, id: nat)
    requires var s := Run(trace, now).store; id in s.jobs && s.jobs[id].kind == Scan && s.jobs[id].status == Completed
    ensures exists i :: 0 <= i < |trace| && Publishes(Run(trace[..i], now), trace[i], id) && trace[i].PublishScan? &&
              trace[i].findings == FindingsOf(Run(trace, now).store, id)
  {
    hide Step, Inv, Publishes, StoreOk;
    var n := |trace| - 1;
    if trace != [] {
      var s := Run(trace[..n], now);
      RunKeepsInv(trace[..n], now);
      RunStoreOk(trace[..n], now);
      if id in s.store.jobs {
        StepKeeps(s, trace[n], id);
        if Publishes(s, trace[n], id) {
          PublicationStores(s, trace[n], id);
        } else if s.store.jobs[id].status == Completed {
          FindingsArePublished(trace[..n], now, id);
          var i :| 0 <= i < n && Publishes(Run(trace[..n][..i], now), trace[i], id) && trace[i].PublishScan? &&
                   trace[i].findings == FindingsOf(s.store, id);
          assert trace[..n][..i] == trace[..i];
        } else {
          OnlyPublicationCompletes(s, trace[n], id);
        }
      } else {
        if !trace[n].SubmitJob? { OnlySubmissionCreates(s, trace[n], id); }
        NewJobIsQueued(s, trace[n], id);
      }
    }
  }

  /** A publication by the lease holder stores every finding, once and in order, and completes the job. */
  lemma PublicationStores(s: State, action: Action, id: nat)
    requires StoreOk(s.store) && Publishes(s, action, id)
    ensures action.PublishScan?
    ensures var a, b := s.store, Step(s, action).store;
            && FindingsOf(b, id) == action.findings && (forall x :: x != id ==> FindingsOf(b, x) == FindingsOf(a, x))
            && b.jobs == a.jobs[id := a.jobs[id].(status := Completed, active := false, lease := None,
                                                  findingCount := |action.findings|)]
            && b.events == a.events + [Event(id, CompletedEvent)]
  {
    assert RowOk(s.store, id);
  }

  lemma OnlyPublicationCompletes(s: State, action: Action, id: nat)
    requires id in s.store.jobs && s.store.jobs[id].kind == Scan && s.store.jobs[id].status != Completed
    requires !Publishes(s, action, id)
    ensures id in Step(s, action).store.jobs ==> Step(s, action).store.jobs[id].status != Completed
  {
    hide FindRequest, CreatedSince, Busy;
  }

  lemma NewJobIsQueued(s: State, action: Action, id: nat)
    requires id !in s.store.jobs && action.SubmitJob?
    ensures id in Step(s, action).store.jobs ==> Step(s, action).store.jobs[id].status == Queued
  {
    hide FindRequest, CreatedSince, Busy;
  }

  // ----- The lease holder's writes -----

  /** The token holds the job's unexpired lease at a reading of the clock. */
  ghost predicate Held(s: State, token: nat, at: int) {
    && token in s.workers && at <= s.now
    && var id := s.workers[token].job;
       id in s.store.jobs && s.store.jobs[id].status == Processing && s.store.jobs[id].lease == Some(token) &&
       at < s.store.jobs[id].leaseExpiresAt
  }

  lemma HeldIsClaimed(s: State, token: nat, at: int)
    requires StoreOk(s.store) && token in s.workers && at <= s.now
    ensures Held(s, token, at) <==> Claimed(s.store, s.workers[token].job, token, at)
  {
    var id := s.workers[token].job;
    if id in s.store.jobs { JobOf(s.store, id); }
  }

  /** Without the lease, a worker's writes change nothing at all. */
  lemma UnheldWritesNothing(s: State, action: Action)
    requires StoreOk(s.store) && (action.FailJob? || action.PublishScan? || action.PinDigest? || action.PublishSanitized?)
    requires !Held(s, action.token, action.at)
    ensures Step(s, action) == s
  {
    hide StoreOk;
    if action.token in s.workers && action.at <= s.now { HeldIsClaimed(s, action.token, action.at); }
  }

  /** With the lease, a failure is recorded once, with its event. */
  lemma HeldFails(s: State, token: nat, at: int)
    requires StoreOk(s.store) && Held(s, token, at)
    ensures var id, job := s.workers[token].job, s.store.jobs[s.workers[token].job];
            Step(s, FailJob(token, at)).store ==
            s.store.(jobs := s.store.jobs[id := job.(status := Failed, active := false, lease := None)],
                     events := s.store.events + [Event(id, FailedEvent)])
  {
    hide StoreOk;
    HeldIsClaimed(s, token, at);
  }

  /** From the claim on, for two minutes, nobody but its holder or a cancellation takes a job away. */
  lemma {:induction false} LeaseHolds(trace: seq<Action>, more: seq<Action>, now: int, id: nat, at: int, approved: bool)
    requires var s := Run(trace, now);
             id in s.store.jobs && s.store.jobs[id].status == Queued && at <= s.now && (approved || s.store.jobs[id].kind == Scan)
    requires forall i :: 0 <= i < |more| ==>
               && (At(more[i]).Some? ==> At(more[i]).value < at + 120_000)
               && more[i] != CancelJob(id, true)
               && ((more[i].FailJob? || more[i].PublishScan? || more[i].PublishSanitized?) ==>
                     more[i].token != Run(trace, now).tokens)
    ensures var s, t := Run(trace, now), Run(trace + [ClaimJob(id, at, approved)] + more, now);
            && id in t.store.jobs && t.store.jobs[id].status == Processing && t.store.jobs[id].lease == Some(s.tokens)
            && t.store.jobs[id].leaseExpiresAt == at + 120_000 && t.store.jobs[id].attempts == s.store.jobs[id].attempts + 1
            && s.tokens < t.tokens && s.tokens in t.workers && t.workers[s.tokens].job == id
  {
    hide Step, StoreOk;
    var claim := ClaimJob(id, at, approved);
    if more == [] {
      assert trace + [claim] + more == trace + [claim];
      assert (trace + [claim])[..|trace|] == trace;
      RunStoreOk(trace, now);
      ClaimTakes(Run(trace, now), id, at, approved);
    } else {
      var last := |more| - 1;
      LeaseHolds(trace, more[..last], now, id, at, approved);
      assert (trace + [claim] + more)[..|trace + [claim] + more| - 1] == trace + [claim] + more[..last];
      LeaseKept(Run(trace + [claim] + more[..last], now), more[last], id, Run(trace, now).tokens);
    }
  }

  lemma ClaimTakes(s: State, id: nat, at: int, approved: bool)
    requires StoreOk(s.store) && id in s.store.jobs && s.store.jobs[id].status == Queued && at <= s.now
    requires approved || s.store.jobs[id].kind == Scan
    ensures var job, t := s.store.jobs[id], Step(s, ClaimJob(id, at, approved));
            && job.active
            && t == s.(store := s.store.(jobs := s.store.jobs[id := job.(status := Processing, lease := Some(s.tokens),
                                                                         leaseExpiresAt := at + 120_000, attempts := job.attempts + 1)]),
                       tokens := s.tokens + 1, workers := s.workers[s.tokens := Worker(id, job.outputDigest, None, false, false)])
  {
    hide StoreOk;
    JobOf(s.store, id);
  }

  lemma LeaseKept(s: State, action: Action, id: nat, token: nat)
    requires id in s.store.jobs && s.store.jobs[id].status == Processing && s.store.jobs[id].lease == Some(token)
    requires token in s.workers && s.workers[token].job == id
    requires At(action).Some? ==> At(action).value < s.store.jobs[id].leaseExpiresAt
    requires action != CancelJob(id, true)
    requires (action.FailJob? || action.PublishScan? || action.PublishSanitized?) ==> action.token != token
    requires token < s.tokens
    ensures var a, t := s.store.jobs[id], Step(s, action);
            && id in t.store.jobs && t.store.jobs[id].status == Processing && t.store.jobs[id].lease == Some(token)
            && t.store.jobs[id].leaseExpiresAt == a.leaseExpiresAt && t.store.jobs[id].attempts == a.attempts
            && token < t.tokens && token in t.workers && t.workers[token].job == id
  {
    hide FindRequest, CreatedSince, Busy;
  }

  // ----- Cancelling and recovering -----

  /** An authorised cancellation of an active job ends it as cancelled, for good; any other changes nothing. */
  lemma CancelEnds(trace: seq<Action>, more: seq<Action>, now: int, id: nat)
    requires id in Run(trace, now).store.jobs
    ensures Step(Run(trace, now), CancelJob(id, false)) == Run(trace, now)
    ensures var s, t := Run(trace, now), Run(trace + [CancelJob(id, true)] + more, now);
            && id in t.store.jobs
            && (if s.store.jobs[id].status in {Queued, Processing} then t.store.jobs[id].status == Cancelled
                else t.store.jobs[id].status == s.store.jobs[id].status)
  {
    hide Step, StoreOk;
    var s := Run(trace, now);
    RunStoreOk(trace, now);
    var cancelled := trace + [CancelJob(id, true)];
    assert cancelled[..|trace|] == trace;
    CancelTakes(s, id);
    RunStoreOk(cancelled, now);
    JobOf(Run(cancelled, now).store, id);
    InactiveForever(cancelled, more, now, id);
  }

  lemma CancelTakes(s: State, id: nat)
    requires StoreOk(s.store) && id in s.store.jobs
    ensures Step(s, CancelJob(id, false)) == s
    ensures var job, t := s.store.jobs[id], Step(s, CancelJob(id, true)).store;
            if job.status in {Queued, Processing} then
              t == s.store.(jobs := s.store.jobs[id := job.(status := Cancelled, active := false, lease := None)],
                            events := s.store.events + [Event(id, CancelledEvent)])
            else t == s.store
  {
    hide StoreOk;
    JobOf(s.store, id);
  }

  /** A job whose lease has run out is put back, or failed after its third attempt, as soon as recover reads and writes it. */
  lemma ExpiredIsRecovered(trace: seq<Action>, now: int, id: nat, at: int, approved: bool)
    requires var s := Run(trace, now);
             && id in s.store.jobs && s.store.jobs[id].status == Processing && s.store.jobs[id].leaseExpiresAt <= at <= s.now
             && (approved || s.store.jobs[id].kind == Scan)
    ensures var s := Run(trace, now);
            var job := s.store.jobs[id];
            && job.lease.Some?
            && var t := Step(Step(s, ReadExpired(id, at, approved)), RecoverJob(Read(id, job.lease.value, job.attempts), at)).store;
            && t.findings == s.store.findings
            && t.jobs == s.store.jobs[id := if job.attempts == 3 then job.(status := Failed, active := false, lease := None)
                                            else job.(status := Queued, lease := None)]
            && t.events == s.store.events + [Event(id, if job.attempts == 3 then FailedEvent else QueuedEvent)]
  {
    hide Run, StoreOk;
    RunStoreOk(trace, now);
    JobOf(Run(trace, now).store, id);
  }

  /** recover's write has no effect once the lease it read is no longer the job's or has not run out. */
  lemma StaleRecoveryWritesNothing(s: State, read: Read, at: int)
    requires read.job in s.store.jobs ==>
               s.store.jobs[read.job].lease != Some(read.lease) || at < s.store.jobs[read.job].leaseExpiresAt || s.now < at
    ensures Step(s, RecoverJob(read, at)) == s
  {
  }

  // ----- Copies and cleanup -----

  /** Undisturbed, a sanitization ends with its copy and the object that was written. */
  lemma SanitizationSucceeds(s: State, id: nat, at: int, digest: nat)
    requires StoreOk(s.store) && at <= s.now && id in s.store.jobs
    requires s.store.jobs[id].status == Queued && s.store.jobs[id].kind == Sanitize
    requires s.store.jobs[id].outputDigest in {None, Some(digest)}
    ensures var token := s.tokens;
            var a := Step(Step(s, ClaimJob(id, at, true)), PinDigest(token, at, digest, true));
            var b := Step(Step(a, IssuePut(token)), LandOwnPut(token));
            var c := Step(b, PublishSanitized(token, at, true, true));
            && id in a.store.jobs && a.store.jobs[id].outputDigest == Some(digest) && a.store.jobs[id].cleanupPending
            && Put(id, digest) in b.puts && b.objects == s.objects[id := digest]
            && c.copies == s.copies + {id} && c.objects == b.objects && id in c.store.jobs
            && c.store.jobs[id] == a.store.jobs[id].(status := Completed, active := false, lease := None, cleanupPending := false)
            && c.store.events == s.store.events + [Event(id, CompletedEvent)]
            && (forall x :: x in s.store.jobs && x != id ==> x in c.store.jobs && c.store.jobs[x] == s.store.jobs[x])
  {
    hide StoreOk, Step;
    ClaimTakes(s, id, at, true);
    var a0 := Step(s, ClaimJob(id, at, true));
    PinTakes(a0, id, s.tokens, at, digest);
    var a := Step(a0, PinDigest(s.tokens, at, digest, true));
    CopyTakes(a, id, s.tokens, at, digest);
  }

  lemma PinTakes(s: State, id: nat, token: nat, at: int, digest: nat)
    requires at <= s.now && id in s.store.jobs && Claimed(s.store, id, token, at)
    requires s.store.jobs[id].kind == Sanitize && s.store.jobs[id].outputDigest in {None, Some(digest)}
    requires token in s.workers && s.workers[token] == Worker(id, s.store.jobs[id].outputDigest, None, false, false)
    ensures Step(s, PinDigest(token, at, digest, true)) ==
            s.(store := s.store.(jobs := s.store.jobs[id := s.store.jobs[id].(cleanupPending := true, outputDigest := Some(digest))]),
               workers := s.workers[token := s.workers[token].(pinned := Some(digest))])
  {
  }

  lemma CopyTakes(s: State, id: nat, token: nat, at: int, digest: nat)
    requires at <= s.now && id in s.store.jobs && Claimed(s.store, id, token, at) && s.store.jobs[id].kind == Sanitize
    requires token in s.workers && s.workers[token].job == id && s.workers[token].pinned == Some(digest)
    ensures var b := Step(Step(s, IssuePut(token)), LandOwnPut(token));
            var c := Step(b, PublishSanitized(token, at, true, true));
            && Put(id, digest) in b.puts && b.objects == s.objects[id := digest]
            && c.copies == s.copies + {id} && c.objects == b.objects
            && c.store.jobs == s.store.jobs[id := s.store.jobs[id].(status := Completed, active := false, lease := None,
                                                                     cleanupPending := false)]
            && c.store.events == s.store.events + [Event(id, CompletedEvent)]
  {
  }

  /**
    Nothing that was ever sent to the object store is forgotten: once its job has ended, cleanup
    can select the job, and unless the copy exists it deletes the object.
  */
  lemma NoObjectIsForgotten(trace: seq<Action>, now: int, id: nat, digest: nat)
    requires var s := Run(trace, now);
             (Put(id, digest) in s.puts || id in s.objects) && id in s.store.jobs && !s.store.jobs[id].active
    ensures var s := Run(trace, now);
            var t := Step(s, SelectCleanup(id));
            id in t.selected && (id !in s.copies ==> id !in Step(Step(t, IssueDelete(id)), LandDelete(id)).objects)
  {
    hide Run, StoreOk, LeasesOk, WorkersOk, ReadsOk, ObjectsOk, CopiesOk, CleanupOk, Step, PendingOk;
    RunKeepsInv(trace, now);
    JobIsAsSubmitted(trace, now, id);
    var s := Run(trace, now);
    HasDigest(s, id, digest);
    EndedIsCleaned(s, id);
  }

  lemma HasDigest(s: State, id: nat, digest: nat)
    requires ObjectsOk(s) && (Put(id, digest) in s.puts || id in s.objects) && id in s.store.jobs
    ensures s.store.jobs[id].outputDigest.Some?
  {
    if Put(id, digest) in s.puts {
      assert Digest(s, id, digest);
    } else {
      assert Digest(s, id, s.objects[id]);
    }
  }

  lemma EndedIsCleaned(s: State, id: nat)
    requires id in s.store.jobs && !s.store.jobs[id].active && s.store.jobs[id].outputDigest.Some? && PendingOk(s.store.jobs[id])
    ensures var t := Step(s, SelectCleanup(id));
            id in t.selected && (id !in s.copies ==> id !in Step(Step(t, IssueDelete(id)), LandDelete(id)).objects)
  {
  }

  /** Cleanup never selects a job that can still publish. */
  lemma OnlyEndedJobsAreSelected(s: State, id: nat)
    requires id in Step(s, SelectCleanup(id)).selected && id !in s.selected
    ensures id in s.store.jobs && !s.store.jobs[id].active && s.store.jobs[id].kind == Sanitize
  {
  }

  /** Undisturbed, removing a copy leaves neither row nor object, but the job's tombstone if one was asked for. */
  lemma RemovalSucceeds(s: State, id: nat, tombstone: bool)
    requires id in s.copies && id in s.store.jobs
    ensures var t := Step(Step(Step(s, BeginRemoval(id, tombstone)), RemoveObject(id)), RemoveRow(id));
            && t.copies == s.copies - {id} && t.objects == s.objects - {id} && t.store.jobs.Keys == s.store.jobs.Keys
            && t.store.jobs[id] == s.store.jobs[id].(cleanupPending := tombstone || s.store.jobs[id].cleanupPending)
            && forall x :: x in s.store.jobs && x != id ==> t.store.jobs[x] == s.store.jobs[x]
  {
  }
}
