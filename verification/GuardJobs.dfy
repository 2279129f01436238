/**
  Guard job documents, their findings and their event log. Every operation below is one MongoDB
  transaction or conditional update: it either returns the new collections or, when its filter
  does not match or a check throws, leaves them as they are.
*/
module GuardJobs {
  import opened Wrappers

  const LEASE_MS := 120_000
  const MAX_CLAIMS := 3
  const RATE_WINDOW_MS := 60_000
  const RATE_LIMIT := 10

  datatype Kind = Scan | Sanitize

  datatype Status = Queued | Processing | Completed | Failed | Cancelled

  /** The client's idempotency identity: company, requester and request key. */
  datatype Request = Request(company: nat, requester: nat, key: nat)

  datatype Job = Job(
    request: Request,
    fingerprint: nat,
    kind: Kind,
    createdAt: int,
    status: Status,
    active: bool,
    attempts: nat,
    lease: Option<nat>,
    leaseExpiresAt: int,
    findingCount: nat,
    outputDigest: Option<nat>,
    cleanupPending: bool)

  datatype EventKind = QueuedEvent | CompletedEvent | FailedEvent | CancelledEvent

  datatype Event = Event(job: nat, kind: EventKind)

  datatype Store = Store(jobs: map<nat, Job>, findings: map<nat, seq<nat>>, events: seq<Event>)

  function Update(s: Store, id: nat, job: Job, kind: EventKind): Store {
    s.(jobs := s.jobs[id := job], events := s.events + [Event(id, kind)])
  }

  // ----- Admission (guard.service.ts submit and replay, guard-sanitization.service.ts submit) -----

  datatype Admission = Created(store: Store) | Replayed(id: nat) | RequestConflict | RateLimited | ActiveScanExists | Denied

  function FindRequest(s: Store, request: Request): set<nat> {
    set id | id in s.jobs && s.jobs[id].request == request
  }

  function CreatedSince(s: Store, company: nat, from: int): set<nat> {
    set id | id in s.jobs && s.jobs[id].request.company == company && s.jobs[id].createdAt >= from
  }

  predicate Busy(s: Store, company: nat) {
    exists id :: id in s.jobs && s.jobs[id].request.company == company && s.jobs[id].active
  }

  /** `authorised` is the outcome of resolve; `id` is the new document's id. */
  ghost function Submit(s: Store, id: nat, request: Request, fingerprint: nat, kind: Kind, at: int,
          authorised: bool): Admission
    requires id !in s.jobs
  {
    if !authorised then Denied
    else if FindRequest(s, request) != {} then
      var existing :| existing in FindRequest(s, request);
      if s.jobs[existing].kind == kind && s.jobs[existing].fingerprint == fingerprint then Replayed(existing) else RequestConflict
    else if |CreatedSince(s, request.company, at - RATE_WINDOW_MS)| >= RATE_LIMIT then RateLimited
    else if Busy(s, request.company) then ActiveScanExists
    else
      Created(Update(s, id, Job(request, fingerprint, kind, at, Queued, true, 0, None, 0, 0, None, false), QueuedEvent))
  }

  // ----- The lease -----

  /** The filter every write of a worker uses. */
  predicate Claimed(s: Store, id: nat, token: nat, at: int) {
    && id in s.jobs
    && s.jobs[id].status == Processing
    && s.jobs[id].active
    && s.jobs[id].lease == Some(token)
    && s.jobs[id].leaseExpiresAt > at
  }

  predicate Claimable(s: Store, id: nat, sanitizationApproved: bool) {
    id in s.jobs && s.jobs[id].status == Queued && s.jobs[id].active && (sanitizationApproved || s.jobs[id].kind != Sanitize)
  }

  function Claim(s: Store, id: nat, token: nat, at: int, approved: bool): Store {
    if !Claimable(s, id, approved) then s
    else
      var job := s.jobs[id];
      s.(jobs := s.jobs[id := job.(status := Processing, lease := Some(token), leaseExpiresAt := at + LEASE_MS,
                                   attempts := job.attempts + 1)])
  }

  function Finished(job: Job, status: Status): Job {
    job.(status := status, active := false, lease := None)
  }

  /** GuardWorker.terminal. */
  function Terminate(s: Store, id: nat, token: nat, at: int): Store {
    if !Claimed(s, id, token, at) then s else Update(s, id, Finished(s.jobs[id], Failed), FailedEvent)
  }

  predicate Expired(s: Store, id: nat, at: int, approved: bool) {
    && id in s.jobs
    && s.jobs[id].status == Processing
    && s.jobs[id].active
    && (approved || s.jobs[id].kind != Sanitize)
    && s.jobs[id].leaseExpiresAt <= at
  }

  /** One iteration of GuardWorker.recover, decided on the `attempts` and `lease` of an earlier read. */
  function Recover(s: Store, id: nat, lease: Option<nat>, attempts: nat, at: int): Store {
    if !(id in s.jobs && s.jobs[id].status == Processing && s.jobs[id].lease == lease && s.jobs[id].leaseExpiresAt <= at) then s
    else if attempts >= MAX_CLAIMS then Update(s, id, Finished(s.jobs[id], Failed), FailedEvent)
    else Update(s, id, s.jobs[id].(status := Queued, lease := None), QueuedEvent)
  }

  /** GuardService.cancel. */
  function Cancel(s: Store, id: nat, authorised: bool): Store {
    if !authorised || id !in s.jobs || !s.jobs[id].active then s
    else Update(s, id, Finished(s.jobs[id], Cancelled), CancelledEvent)
  }

  // ----- Publication -----

  /** GuardWorker.publish: findings, completion and event, or nothing. */
  function Publish(s: Store, id: nat, token: nat, at: int, authorised: bool, findings: seq<nat>): Store {
    if !Claimed(s, id, token, at) || !authorised then s
    else
      Update(s.(findings := if findings == [] then s.findings else s.findings[id := findings]), id,
             Finished(s.jobs[id], Completed).(findingCount := |findings|), CompletedEvent)
  }

  /** The first transaction of GuardSanitizationService.process; `remembered` is the digest read when the job was claimed. */
  function PinOutput(s: Store, id: nat, token: nat, at: int, remembered: Option<nat>, digest: nat,
          authorised: bool): Option<Store> {
    if !Claimed(s, id, token, at) then None
    else if remembered.Some? && remembered.value != digest then None
    else if !authorised then None
    else Some(s.(jobs := s.jobs[id := s.jobs[id].(cleanupPending := true, outputDigest := Some(digest))]))
  }

  /** The second transaction of process, which also creates the derived file; `admitted` is the quota decision. */
  function PublishCopy(s: Store, id: nat, token: nat, at: int, authorised: bool, admitted: bool): Option<Store> {
    if !Claimed(s, id, token, at) || !authorised || !admitted then None
    else Some(Update(s, id, Finished(s.jobs[id], Completed).(cleanupPending := false), CompletedEvent))
  }

  /** The tombstone FilesService.delete leaves before it deletes a derived file. */
  function Tombstone(s: Store, id: nat): Store {
    if id !in s.jobs then s else s.(jobs := s.jobs[id := s.jobs[id].(cleanupPending := true)])
  }

  /** The filter of GuardSanitizationService.cleanup. */
  predicate NeedsCleanup(s: Store, id: nat) {
    id in s.jobs && s.jobs[id].kind == Sanitize && !s.jobs[id].active && (s.jobs[id].cleanupPending || s.jobs[id].status == Completed)
  }

  // ----- What every operation keeps -----

  predicate JobOk(job: Job) {
    && (job.active <==> job.status in {Queued, Processing})
    && (job.lease.Some? <==> job.status == Processing)
    && job.attempts <= MAX_CLAIMS
    && (job.status == Queued ==> job.attempts < MAX_CLAIMS)
    && (job.status == Processing ==> job.attempts > 0)
  }

  /** The events of one job, in order. */
  function History(events: seq<Event>, id: nat): seq<EventKind> {
    if events == [] then []
    else
      var last := events[|events| - 1];
      History(events[..|events| - 1], id) + if last.job == id then [last.kind] else []
  }

  function QueuedTimes(n: nat): (log: seq<EventKind>)
    ensures |log| == n
  {
    if n == 0 then [] else QueuedTimes(n - 1) + [QueuedEvent]
  }

  function EndOf(status: Status): seq<EventKind> {
    match status
    case Completed => [CompletedEvent]
    case Failed => [FailedEvent]
    case Cancelled => [CancelledEvent]
    case _ => []
  }

  /** How often the job was put in the queue: its claims, plus one if its last stay there was not ended by a claim. */
  predicate TimesQueued(job: Job, n: nat) {
    match job.status
    case Queued => n == job.attempts + 1
    case Cancelled => n == job.attempts || n == job.attempts + 1
    case _ => n == job.attempts
  }

  /** The log of a job: one entry per stay in the queue, then one terminal entry exactly when it is inactive. */
  predicate LogOk(job: Job, history: seq<EventKind>) {
    && |history| >= |EndOf(job.status)|
    && var n := |history| - |EndOf(job.status)|;
       TimesQueued(job, n) && history == QueuedTimes(n) + EndOf(job.status)
  }

  predicate FindingsOk(s: Store, id: nat)
    requires id in s.jobs
  {
    if s.jobs[id].status == Completed then |FindingsOf(s, id)| == s.jobs[id].findingCount else id !in s.findings
  }

  function FindingsOf(s: Store, id: nat): seq<nat> {
    if id in s.findings then s.findings[id] else []
  }

  /** Requests are identities, and a company has at most one active job. */
  predicate AdmissionOk(s: Store) {
    forall x, y :: x in s.jobs && y in s.jobs && x != y ==>
      && s.jobs[x].request != s.jobs[y].request
      && !(s.jobs[x].request.company == s.jobs[y].request.company && s.jobs[x].active && s.jobs[y].active)
  }

  predicate RowOk(s: Store, id: nat)
    requires id in s.jobs
  {
    && JobOk(s.jobs[id])
    && LogOk(s.jobs[id], History(s.events, id))
    && FindingsOk(s, id)
    && (s.jobs[id].kind == Sanitize ==> id !in s.findings && s.jobs[id].findingCount == 0)
  }

  predicate ReferencesOk(s: Store) {
    && (forall id :: id in s.findings ==> id in s.jobs)
    && (forall e :: e in s.events ==> e.job in s.jobs)
  }

  predicate StoreOk(s: Store) {
    && (forall id :: id in s.jobs ==> RowOk(s, id))
    && ReferencesOk(s)
    && AdmissionOk(s)
  }

  lemma HistoryAppend(events: seq<Event>, e: Event, id: nat)
    ensures History(events + [e], id) == History(events, id) + if e.job == id then [e.kind] else []
  {
    assert (events + [e])[..|events|] == events;
  }

  lemma {:induction false} NoHistory(events: seq<Event>, id: nat)
    requires forall e :: e in events ==> e.job != id
    ensures History(events, id) == []
  {
    if events != [] {
      NoHistory(events[..|events| - 1], id);
    }
  }

  /** A write to one existing job that logs nothing. */
  lemma TouchKeepsStore(s: Store, id: nat, job: Job)
    requires StoreOk(s) && id in s.jobs && JobOk(job) && LogOk(job, History(s.events, id))
    requires job.request == s.jobs[id].request && job.kind == s.jobs[id].kind
    requires job.findingCount == s.jobs[id].findingCount
    requires (job.status == Completed <==> s.jobs[id].status == Completed) && (job.active ==> s.jobs[id].active)
    ensures StoreOk(s.(jobs := s.jobs[id := job]))
  {
    hide History, LogOk, JobOk, AdmissionOk;
    var t := s.(jobs := s.jobs[id := job]);
    assert RowOk(s, id);
    forall x | x in t.jobs ensures RowOk(t, x) {
      assert RowOk(s, x);
    }
    SameAdmission(s, t, id);
  }

  /** A write to one active job that logs one event. */
  lemma LoggedKeepsStore(s: Store, id: nat, job: Job, kind: EventKind, findings: seq<nat>)
    requires StoreOk(s) && id in s.jobs && s.jobs[id].active && JobOk(job)
    requires job.request == s.jobs[id].request && job.kind == s.jobs[id].kind
    requires LogOk(job, History(s.events, id) + [kind])
    requires if job.status == Completed then job.findingCount == |findings| else findings == []
    requires job.kind == Sanitize ==> findings == [] && job.findingCount == 0
    ensures StoreOk(Update(s.(findings := if findings == [] then s.findings else s.findings[id := findings]), id, job, kind))
  {
    hide History, LogOk, AdmissionOk;
    assert RowOk(s, id) && id !in s.findings;
    var t := Update(s.(findings := if findings == [] then s.findings else s.findings[id := findings]), id, job, kind);
    forall x | x in t.jobs ensures RowOk(t, x) {
      assert RowOk(s, x);
      HistoryAppend(s.events, Event(id, kind), x);
      assert History(s.events, x) + [] == History(s.events, x);
    }
    SameAdmission(s, t, id);
  }

  lemma SameAdmission(s: Store, t: Store, id: nat)
    requires AdmissionOk(s) && id in s.jobs && id in t.jobs && t.jobs == s.jobs[id := t.jobs[id]]
    requires t.jobs[id].request == s.jobs[id].request && (t.jobs[id].active ==> s.jobs[id].active)
    ensures AdmissionOk(t)
  {
  }

  lemma CreateKeepsStore(s: Store, id: nat, job: Job)
    requires StoreOk(s) && id !in s.jobs
    requires job.status == Queued && job.active && job.attempts == 0 && job.lease.None? && job.findingCount == 0
    requires forall x :: x in s.jobs ==> s.jobs[x].request != job.request
    requires !Busy(s, job.request.company)
    ensures StoreOk(Update(s, id, job, QueuedEvent))
  {
    NewRow(s, id, job);
    var t := Update(s, id, job, QueuedEvent);
    hide History, LogOk, JobOk, FindingsOk, AdmissionOk;
    forall x | x in t.jobs ensures RowOk(t, x) {
      if x != id { OtherRow(s, id, job, x); }
    }
    NewAdmission(s, t, id);
  }

  lemma NewRow(s: Store, id: nat, job: Job)
    requires ReferencesOk(s) && id !in s.jobs
    requires job.status == Queued && job.active && job.attempts == 0 && job.lease.None? && job.findingCount == 0
    ensures RowOk(Update(s, id, job, QueuedEvent), id)
  {
    var t := Update(s, id, job, QueuedEvent);
    assert History(t.events, id) == [QueuedEvent] by {
      NoHistory(s.events, id);
      HistoryAppend(s.events, Event(id, QueuedEvent), id);
    }
    hide History;
    assert LogOk(job, [QueuedEvent]) by {
      assert QueuedTimes(1) == QueuedTimes(0) + [QueuedEvent] == [QueuedEvent];
    }
  }

  lemma OtherRow(s: Store, id: nat, job: Job, x: nat)
    requires x in s.jobs && x != id && RowOk(s, x)
    ensures RowOk(Update(s, id, job, QueuedEvent), x)
  {
    hide History, LogOk;
    HistoryAppend(s.events, Event(id, QueuedEvent), x);
    assert History(s.events, x) + [] == History(s.events, x);
  }

  lemma NewAdmission(s: Store, t: Store, id: nat)
    requires AdmissionOk(s) && id !in s.jobs && id in t.jobs && t.jobs == s.jobs[id := t.jobs[id]]
    requires forall x :: x in s.jobs ==> s.jobs[x].request != t.jobs[id].request
    requires !Busy(s, t.jobs[id].request.company)
    ensures AdmissionOk(t)
  {
  }

  lemma SubmitKeepsStore(s: Store, id: nat, request: Request, fingerprint: nat, kind: Kind, at: int, authorised: bool)
    requires StoreOk(s) && id !in s.jobs
    ensures var admission := Submit(s, id, request, fingerprint, kind, at, authorised);
            admission.Created? ==> StoreOk(admission.store)
  {
    assert AdmissionOk(s);
    hide StoreOk, Update;
    var admission := Submit(s, id, request, fingerprint, kind, at, authorised);
    if admission.Created? {
      assert forall x :: x in s.jobs && s.jobs[x].request == request ==> x in FindRequest(s, request);
      CreateKeepsStore(s, id, Job(request, fingerprint, kind, at, Queued, true, 0, None, 0, 0, None, false));
    }
  }

  /** The log entry of a step that leaves the queue, returns to it, or ends the job. */
  lemma LogGrows(job: Job, next: Job, history: seq<EventKind>)
    requires JobOk(job) && job.active && LogOk(job, history) && next.attempts == job.attempts
    ensures next.status == Queued && job.status == Processing ==> LogOk(next, history + [QueuedEvent])
    ensures next.status == Cancelled ==> LogOk(next, history + [CancelledEvent])
    ensures next.status == Failed && job.status == Processing ==> LogOk(next, history + [FailedEvent])
    ensures next.status == Completed && job.status == Processing ==> LogOk(next, history + [CompletedEvent])
  {
    var n := |history|;
    assert history == QueuedTimes(n) + [] == QueuedTimes(n);
    assert QueuedTimes(n + 1) == QueuedTimes(n) + [QueuedEvent];
    assert QueuedTimes(n + 1) + [] == QueuedTimes(n + 1);
  }

  lemma ClaimKeepsStore(s: Store, id: nat, token: nat, at: int, approved: bool)
    requires StoreOk(s)
    ensures StoreOk(Claim(s, id, token, at, approved))
  {
    if Claimable(s, id, approved) {
      assert RowOk(s, id);
      TouchKeepsStore(s, id, Claim(s, id, token, at, approved).jobs[id]);
    }
  }

  lemma TerminateKeepsStore(s: Store, id: nat, token: nat, at: int)
    requires StoreOk(s)
    ensures StoreOk(Terminate(s, id, token, at))
  {
    if Claimed(s, id, token, at) {
      assert RowOk(s, id);
      LogGrows(s.jobs[id], Finished(s.jobs[id], Failed), History(s.events, id));
      LoggedKeepsStore(s, id, Finished(s.jobs[id], Failed), FailedEvent, []);
    }
  }

  /** The decision is right although it was made on an older read, because the lease it names has not changed. */
  lemma RecoverKeepsStore(s: Store, id: nat, lease: Option<nat>, attempts: nat, at: int)
    requires StoreOk(s) && (id in s.jobs && s.jobs[id].lease == lease ==> s.jobs[id].attempts == attempts)
    ensures StoreOk(Recover(s, id, lease, attempts, at))
  {
    if id in s.jobs && s.jobs[id].status == Processing && s.jobs[id].lease == lease && s.jobs[id].leaseExpiresAt <= at {
      assert RowOk(s, id);
      var job := s.jobs[id];
      var queued := job.(status := Queued, lease := None);
      LogGrows(job, Finished(job, Failed), History(s.events, id));
      LogGrows(job, queued, History(s.events, id));
      if attempts >= MAX_CLAIMS {
        LoggedKeepsStore(s, id, Finished(job, Failed), FailedEvent, []);
      } else {
        LoggedKeepsStore(s, id, queued, QueuedEvent, []);
      }
    }
  }

  lemma CancelKeepsStore(s: Store, id: nat, authorised: bool)
    requires StoreOk(s)
    ensures StoreOk(Cancel(s, id, authorised))
  {
    if authorised && id in s.jobs && s.jobs[id].active {
      assert RowOk(s, id);
      LogGrows(s.jobs[id], Finished(s.jobs[id], Cancelled), History(s.events, id));
      LoggedKeepsStore(s, id, Finished(s.jobs[id], Cancelled), CancelledEvent, []);
    }
  }

  lemma PublishKeepsStore(s: Store, id: nat, token: nat, at: int, authorised: bool, findings: seq<nat>)
    requires StoreOk(s) && (id in s.jobs ==> s.jobs[id].kind == Scan)
    ensures StoreOk(Publish(s, id, token, at, authorised, findings))
  {
    if Claimed(s, id, token, at) && authorised {
      assert RowOk(s, id);
      var job := Finished(s.jobs[id], Completed).(findingCount := |findings|);
      LogGrows(s.jobs[id], job, History(s.events, id));
      LoggedKeepsStore(s, id, job, CompletedEvent, findings);
    }
  }

  lemma PinKeepsStore(s: Store, id: nat, token: nat, at: int, remembered: Option<nat>, digest: nat, authorised: bool)
    requires StoreOk(s)
    ensures var r := PinOutput(s, id, token, at, remembered, digest, authorised); r.Some? ==> StoreOk(r.value)
  {
    var r := PinOutput(s, id, token, at, remembered, digest, authorised);
    if r.Some? {
      assert RowOk(s, id);
      TouchKeepsStore(s, id, r.value.jobs[id]);
    }
  }

  lemma PublishCopyKeepsStore(s: Store, id: nat, token: nat, at: int, authorised: bool, admitted: bool)
    requires StoreOk(s) && (id in s.jobs ==> s.jobs[id].kind == Sanitize)
    ensures var r := PublishCopy(s, id, token, at, authorised, admitted); r.Some? ==> StoreOk(r.value)
  {
    var r := PublishCopy(s, id, token, at, authorised, admitted);
    if r.Some? {
      assert RowOk(s, id);
      var job := Finished(s.jobs[id], Completed).(cleanupPending := false);
      LogGrows(s.jobs[id], job, History(s.events, id));
      LoggedKeepsStore(s, id, job, CompletedEvent, []);
    }
  }

  lemma TombstoneKeepsStore(s: Store, id: nat)
    requires StoreOk(s)
    ensures StoreOk(Tombstone(s, id))
  {
    if id in s.jobs {
      assert RowOk(s, id);
      TouchKeepsStore(s, id, Tombstone(s, id).jobs[id]);
    }
  }
}
