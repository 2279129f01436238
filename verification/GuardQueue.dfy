/**
  The guard collections as they are updated in place. Each method is one transaction, or the whole
  of `recover`; its contract ties the new collections to the functions of GuardJobs.
*/
module GuardQueue {
  import opened Wrappers
  import opened GuardJobs

  const RECOVERY_BATCH := 20

  type Bytes = seq<bv8>

  datatype ReadError = LimitExceeded | InvalidWorkbook | AccessRevoked | TimedOut | StorageUnavailable

  /** Revoked access, the timer or the storage ends the stream after so many of its chunks. */
  datatype Interruption = Interruption(after: nat, error: ReadError)

  function Flatten(chunks: seq<Bytes>): Bytes {
    if chunks == [] then [] else Flatten(chunks[..|chunks| - 1]) + chunks[|chunks| - 1]
  }

  lemma {:induction false} FlattenPrefix(chunks: seq<Bytes>, n: nat)
    requires n <= |chunks|
    ensures |Flatten(chunks[..n])| <= |Flatten(chunks)|
    decreases |chunks|
  {
    if n < |chunks| {
      FlattenPrefix(chunks[..|chunks| - 1], n);
      assert chunks[..|chunks| - 1][..n] == chunks[..n];
    } else {
      assert chunks[..n] == chunks;
    }
  }

  /**
    The stream of a stored workbook is read whole, with the announced length, or not at all. Which
    error is reported depends on whether the limit is passed before the stream is cut off.
  */
  method ReadWorkbook(opening: Option<ReadError>, chunks: seq<Bytes>, stop: Option<Interruption>,
                      size: nat, contentLength: Option<nat>, limit: nat)
    returns (r: Result<Bytes, ReadError>)
    ensures var all := Flatten(chunks);
            var cut := stop.Some? && stop.value.after <= |chunks|;
            var read := if cut then Flatten(chunks[..stop.value.after]) else all;
            r == if opening.Some? then Err(opening.value)
                 else if size > limit || (contentLength.Some? && contentLength.value > limit) || |read| > limit then Err(LimitExceeded)
                 else if cut then Err(stop.value.error)
                 else if |all| != size || (contentLength.Some? && |all| != contentLength.value) then Err(InvalidWorkbook)
                 else Ok(all)
  {
    if opening.Some? { return Err(opening.value); }
    if size > limit || (contentLength.Some? && contentLength.value > limit) {
      return Err(LimitExceeded);
    }
    var length, bytes: Bytes := 0, [];
    var i := 0;
    ghost var last := if stop.Some? && stop.value.after <= |chunks| then stop.value.after else |chunks|;
    assert chunks[..|chunks|] == chunks;
    while i < |chunks|
      invariant 0 <= i <= last
      invariant bytes == Flatten(chunks[..i]) && length == |bytes| <= limit
    {
      if stop.Some? && stop.value.after == i { return Err(stop.value.error); }
      assert chunks[..i + 1][..i] == chunks[..i];
      length := length + |chunks[i]|;
      if length > limit {
        FlattenPrefix(chunks[..last], i + 1);
        assert chunks[..last][..i + 1] == chunks[..i + 1];
        return Err(LimitExceeded);
      }
      bytes := bytes + chunks[i];
      i := i + 1;
    }
    if stop.Some? && stop.value.after == i { return Err(stop.value.error); }
    if length != size || (contentLength.Some? && length != contentLength.value) {
      return Err(InvalidWorkbook);
    }
    return Ok(bytes);
  }

  /** `taken` jobs have been put back or failed by recover; nothing else has changed. */
  ghost predicate RecoveredUpTo(before: Store, after: Store, taken: seq<nat>, n: nat)
    requires n <= |taken|
  {
    && after.jobs.Keys == before.jobs.Keys
    && after.findings == before.findings
    && (forall i :: 0 <= i < n && taken[i] in before.jobs ==>
          after.jobs[taken[i]] == if before.jobs[taken[i]].attempts >= MAX_CLAIMS then Finished(before.jobs[taken[i]], Failed)
                                  else before.jobs[taken[i]].(status := Queued, lease := None))
    && (forall id :: id in before.jobs && id !in taken[..n] ==> after.jobs[id] == before.jobs[id])
  }

  lemma OneMoreRecovered(before: Store, s: Store, taken: seq<nat>, n: nat, at: int, approved: bool)
    requires n < |taken| && RecoveredUpTo(before, s, taken, n) && Expired(before, taken[n], at, approved)
    requires taken[n] !in taken[..n]
    ensures taken[n] in s.jobs && s.jobs[taken[n]] == before.jobs[taken[n]]
    ensures var t := GuardJobs.Recover(s, taken[n], before.jobs[taken[n]].lease, before.jobs[taken[n]].attempts, at);
            RecoveredUpTo(before, t, taken, n + 1)
  {
    assert taken[..n + 1] == taken[..n] + [taken[n]];
  }

  class Guard {
    var jobs: map<nat, Job>
    var findings: map<nat, seq<nat>>
    var events: seq<Event>

    constructor ()
      ensures View() == Store(map[], map[], []) && StoreOk(View())
    {
      jobs, findings, events := map[], map[], [];
    }

    ghost function View(): Store
      reads this
    {
      Store(jobs, findings, events)
    }

    /** The token holds the job's unexpired lease. */
    predicate Holds(id: nat, token: nat, at: int)
      reads this
    {
      id in jobs && jobs[id].status == Processing && jobs[id].lease == Some(token) && at < jobs[id].leaseExpiresAt
    }

    method Log(id: nat, kind: EventKind)
      modifies this`events
      ensures events == old(events) + [Event(id, kind)]
    {
      events := events + [Event(id, kind)];
    }

    /** GuardService.submit from its identity lookup on. */
    method Submit(id: nat, request: Request, fingerprint: nat, kind: Kind, at: int, authorised: bool)
      returns (result: Admission)
      requires StoreOk(View()) && id !in jobs
      modifies this
      ensures result == GuardJobs.Submit(old(View()), id, request, fingerprint, kind, at, authorised)
      ensures View() == if result.Created? then result.store else old(View())
      ensures result.Created? ==>
                && jobs == old(jobs)[id := Job(request, fingerprint, kind, at, Queued, true, 0, None, 0, 0, None, false)]
                && events == old(events) + [Event(id, QueuedEvent)] && findings == old(findings)
      ensures StoreOk(View())
    {
      SubmitKeepsStore(View(), id, request, fingerprint, kind, at, authorised);
      hide StoreOk;
      var store := Store(jobs, findings, events);
      if !authorised { return Denied; }
      var same := FindRequest(store, request);
      if same != {} {
        ghost var chosen := GuardJobs.Submit(store, id, request, fingerprint, kind, at, authorised);
        var existing :| existing in same;
        SameRequest(store, existing, request);
        if jobs[existing].kind == kind && jobs[existing].fingerprint == fingerprint { return Replayed(existing); }
        return RequestConflict;
      }
      if |CreatedSince(store, request.company, at - RATE_WINDOW_MS)| >= RATE_LIMIT { return RateLimited; }
      if exists x :: x in jobs && jobs[x].request.company == request.company && jobs[x].active { return ActiveScanExists; }
      jobs := jobs[id := Job(request, fingerprint, kind, at, Queued, true, 0, None, 0, 0, None, false)];
      Log(id, QueuedEvent);
      result := Created(Store(jobs, findings, events));
    }

    /** findOneAndUpdate: the oldest claimable job gets the lease. */
    method Claim(token: nat, at: int, approved: bool) returns (claimed: Option<nat>)
      requires StoreOk(View())
      modifies this`jobs
      ensures claimed.None? ==> jobs == old(jobs) && forall id :: id in jobs ==> !Claimable(View(), id, approved)
      ensures claimed.Some? ==>
        && Claimable(old(View()), claimed.value, approved)
        && (forall id :: id in old(jobs) && Claimable(old(View()), id, approved) ==>
              old(jobs)[claimed.value].createdAt <= old(jobs)[id].createdAt)
        && View() == GuardJobs.Claim(old(View()), claimed.value, token, at, approved)
        && Claimed(View(), claimed.value, token, at)
        && jobs[claimed.value].leaseExpiresAt == at + LEASE_MS
        && jobs[claimed.value].attempts == old(jobs)[claimed.value].attempts + 1
      ensures StoreOk(View())
    {
      claimed := OldestQueued(approved);
      if claimed.Some? {
        ClaimKeepsStore(View(), claimed.value, token, at, approved);
        hide StoreOk;
        var job := jobs[claimed.value];
        jobs := jobs[claimed.value := job.(status := Processing, lease := Some(token), leaseExpiresAt := at + LEASE_MS,
                                           attempts := job.attempts + 1)];
      }
    }

    method OldestQueued(approved: bool) returns (oldest: Option<nat>)
      ensures oldest.None? ==> forall id :: id in jobs ==> !Claimable(View(), id, approved)
      ensures oldest.Some? ==>
        && Claimable(View(), oldest.value, approved)
        && forall id :: id in jobs && Claimable(View(), id, approved) ==> jobs[oldest.value].createdAt <= jobs[id].createdAt
    {
      oldest := None;
      var rest := jobs.Keys;
      while rest != {}
        invariant rest <= jobs.Keys
        invariant oldest.None? ==> forall id :: id in jobs && id !in rest ==> !Claimable(View(), id, approved)
        invariant oldest.Some? ==>
          && Claimable(View(), oldest.value, approved)
          && forall id :: id in jobs && id !in rest && Claimable(View(), id, approved) ==>
               jobs[oldest.value].createdAt <= jobs[id].createdAt
      {
        var id :| id in rest;
        rest := rest - {id};
        if jobs[id].status == Queued && jobs[id].active && (approved || jobs[id].kind != Sanitize) {
          if oldest.None? || jobs[id].createdAt < jobs[oldest.value].createdAt {
            oldest := Some(id);
          }
        }
      }
    }

    /** The query of recover: up to twenty jobs whose lease has run out. */
    method ExpiredJobs(at: int, approved: bool) returns (expired: seq<nat>)
      ensures |expired| <= RECOVERY_BATCH
      ensures forall i :: 0 <= i < |expired| ==> Expired(View(), expired[i], at, approved)
      ensures forall i, j :: 0 <= i < j < |expired| ==> expired[i] != expired[j]
      ensures |expired| < RECOVERY_BATCH ==> forall id :: Expired(View(), id, at, approved) ==> id in expired
    {
      expired := [];
      var rest := jobs.Keys;
      while rest != {} && |expired| < RECOVERY_BATCH
        invariant rest <= jobs.Keys && |expired| <= RECOVERY_BATCH
        invariant forall i :: 0 <= i < |expired| ==> Expired(View(), expired[i], at, approved) && expired[i] !in rest
        invariant forall i, j :: 0 <= i < j < |expired| ==> expired[i] != expired[j]
        invariant forall id :: Expired(View(), id, at, approved) && id !in rest ==> id in expired
        decreases rest
      {
        var id :| id in rest;
        rest := rest - {id};
        if jobs[id].status == Processing && jobs[id].active && (approved || jobs[id].kind != Sanitize) &&
           jobs[id].leaseExpiresAt <= at {
          expired := expired + [id];
        }
      }
    }

    /** The body of recover's loop: the write is guarded by the token that was read. */
    method RecoverOne(id: nat, lease: Option<nat>, attempts: nat, at: int)
      requires StoreOk(View()) && (id in jobs && jobs[id].lease == lease ==> jobs[id].attempts == attempts)
      modifies this
      ensures View() == GuardJobs.Recover(old(View()), id, lease, attempts, at)
      ensures StoreOk(View())
    {
      RecoverKeepsStore(View(), id, lease, attempts, at);
      hide StoreOk;
      var failed := attempts >= MAX_CLAIMS;
      if id in jobs && jobs[id].status == Processing && jobs[id].lease == lease && jobs[id].leaseExpiresAt <= at {
        if failed {
          jobs := jobs[id := jobs[id].(status := Failed, active := false, lease := None)];
        } else {
          jobs := jobs[id := jobs[id].(status := Queued, lease := None)];
        }
        Log(id, if failed then FailedEvent else QueuedEvent);
      }
    }

    /** recover without interference: every job it read is back in the queue, or failed after three attempts. */
    method Recover(at: int, approved: bool) returns (taken: seq<nat>)
      requires StoreOk(View())
      modifies this
      ensures |taken| <= RECOVERY_BATCH
      ensures |taken| < RECOVERY_BATCH ==> forall id :: Expired(old(View()), id, at, approved) ==> id in taken
      ensures forall i :: 0 <= i < |taken| ==> Expired(old(View()), taken[i], at, approved)
      ensures RecoveredUpTo(old(View()), View(), taken, |taken|)
      ensures StoreOk(View())
    {
      taken := ExpiredJobs(at, approved);
      ghost var before := View();
      var found := jobs;
      var i := 0;
      while i < |taken|
        invariant 0 <= i <= |taken|
        invariant StoreOk(View()) && RecoveredUpTo(before, View(), taken, i)
      {
        hide StoreOk, RecoveredUpTo, GuardJobs.Recover;
        OneMoreRecovered(before, View(), taken, i, at, approved);
        RecoverOne(taken[i], found[taken[i]].lease, found[taken[i]].attempts, at);
        i := i + 1;
      }
      assert taken[..i] == taken;
    }

    /** GuardWorker.terminal. */
    method Fail(id: nat, token: nat, at: int)
      requires StoreOk(View())
      modifies this
      ensures View() == Terminate(old(View()), id, token, at)
      ensures if old(Holds(id, token, at)) then
                jobs == old(jobs)[id := old(jobs[id]).(status := Failed, active := false, lease := None)] &&
                events == old(events) + [Event(id, FailedEvent)] && findings == old(findings)
              else View() == old(View())
      ensures StoreOk(View())
    {
      hide StoreOk;
      TerminateKeepsStore(View(), id, token, at);
      if id in jobs { JobFacts(View(), id); }
      if id in jobs && jobs[id].status == Processing && jobs[id].active && jobs[id].lease == Some(token) &&
         jobs[id].leaseExpiresAt > at {
        jobs := jobs[id := jobs[id].(status := Failed, active := false, lease := None)];
        Log(id, FailedEvent);
      }
    }

    method Cancel(id: nat, authorised: bool)
      requires StoreOk(View())
      modifies this
      ensures View() == GuardJobs.Cancel(old(View()), id, authorised)
      ensures if authorised && old(id in jobs && jobs[id].status in {Queued, Processing}) then
                jobs == old(jobs)[id := old(jobs[id]).(status := Cancelled, active := false, lease := None)] &&
                events == old(events) + [Event(id, CancelledEvent)] && findings == old(findings)
              else View() == old(View())
      ensures StoreOk(View())
    {
      CancelKeepsStore(View(), id, authorised);
      if id in jobs { JobFacts(View(), id); }
      hide StoreOk;
      if authorised && id in jobs && jobs[id].active {
        jobs := jobs[id := jobs[id].(status := Cancelled, active := false, lease := None)];
        Log(id, CancelledEvent);
      }
    }

    /** GuardWorker.publish; it has no effect unless the caller holds the lease and is authorised. */
    method Publish(id: nat, token: nat, at: int, authorised: bool, found: seq<nat>)
      requires StoreOk(View()) && (id in jobs ==> jobs[id].kind == Scan)
      modifies this
      ensures View() == GuardJobs.Publish(old(View()), id, token, at, authorised, found)
      ensures if authorised && old(Holds(id, token, at)) then
                && findings == (if found == [] then old(findings) else old(findings)[id := found]) && (found == [] ==> id !in findings)
                && jobs == old(jobs)[id := old(jobs[id]).(status := Completed, active := false, lease := None, findingCount := |found|)]
                && events == old(events) + [Event(id, CompletedEvent)]
              else View() == old(View())
      ensures StoreOk(View())
    {
      PublishKeepsStore(View(), id, token, at, authorised, found);
      if id in jobs { JobFacts(View(), id); }
      hide StoreOk;
      if !(id in jobs && jobs[id].status == Processing && jobs[id].active && jobs[id].lease == Some(token) &&
           jobs[id].leaseExpiresAt > at) {
        return;
      }
      if !authorised { return; }
      if |found| > 0 {
        findings := findings[id := found];
      }
      jobs := jobs[id := jobs[id].(status := Completed, active := false, lease := None, findingCount := |found|)];
      Log(id, CompletedEvent);
    }

    /** The first transaction of process: it pins the digest before any byte is stored. */
    method PinOutput(id: nat, token: nat, at: int, remembered: Option<nat>, digest: nat, authorised: bool)
      returns (pinned: bool)
      requires StoreOk(View())
      modifies this
      ensures var next := GuardJobs.PinOutput(old(View()), id, token, at, remembered, digest, authorised);
              pinned == next.Some? && View() == if pinned then next.value else old(View())
      ensures pinned <==> authorised && old(Holds(id, token, at)) && remembered in {None, Some(digest)}
      ensures if pinned then
                jobs == old(jobs)[id := old(jobs[id]).(cleanupPending := true, outputDigest := Some(digest))] &&
                events == old(events) && findings == old(findings)
              else View() == old(View())
      ensures StoreOk(View())
    {
      PinKeepsStore(View(), id, token, at, remembered, digest, authorised);
      if id in jobs { JobFacts(View(), id); }
      hide StoreOk;
      if !(id in jobs && jobs[id].status == Processing && jobs[id].active && jobs[id].lease == Some(token) &&
           jobs[id].leaseExpiresAt > at) {
        return false;
      }
      if remembered.Some? && remembered.value != digest { return false; }
      if !authorised { return false; }
      jobs := jobs[id := jobs[id].(cleanupPending := true, outputDigest := Some(digest))];
      return true;
    }

    /** The second transaction of process. */
    method PublishCopy(id: nat, token: nat, at: int, authorised: bool, admitted: bool) returns (published: bool)
      requires StoreOk(View()) && (id in jobs ==> jobs[id].kind == Sanitize)
      modifies this
      ensures var next := GuardJobs.PublishCopy(old(View()), id, token, at, authorised, admitted);
              published == next.Some? && View() == if published then next.value else old(View())
      ensures published <==> authorised && admitted && old(Holds(id, token, at))
      ensures if published then
                && jobs == old(jobs)[id := old(jobs[id]).(status := Completed, active := false, lease := None, cleanupPending := false)]
                && events == old(events) + [Event(id, CompletedEvent)] && findings == old(findings)
              else View() == old(View())
      ensures StoreOk(View())
    {
      PublishCopyKeepsStore(View(), id, token, at, authorised, admitted);
      if id in jobs { JobFacts(View(), id); }
      hide StoreOk;
      if !(id in jobs && jobs[id].status == Processing && jobs[id].active && jobs[id].lease == Some(token) &&
           jobs[id].leaseExpiresAt > at) {
        return false;
      }
      if !authorised || !admitted { return false; }
      jobs := jobs[id := jobs[id].(status := Completed, active := false, lease := None, cleanupPending := false)];
      Log(id, CompletedEvent);
      return true;
    }
  }

  lemma JobFacts(s: Store, id: nat)
    requires StoreOk(s) && id in s.jobs
    ensures s.jobs[id].active <==> s.jobs[id].status in {Queued, Processing}
    ensures s.jobs[id].active ==> id !in s.findings
  {
    assert RowOk(s, id);
  }

  lemma SameRequest(s: Store, id: nat, request: Request)
    requires StoreOk(s) && id in FindRequest(s, request)
    ensures forall x :: x in FindRequest(s, request) ==> x == id
  {
    assert AdmissionOk(s);
  }
}
