/**
  Several guard workers over the shared job store and the object store, interleaved one atomic
  step at a time: claims, lost leases, stale reads of `recover`, crashes (a worker simply takes
  no further step), object PUTs and DELETEs that land late and repeatedly, cleanup and file removal.
*/
module GuardProtocol {
  import opened Wrappers
  import opened GuardJobs

  /** A worker's local state, named by its lease token; `remembered` is the digest read at the claim. */
  datatype Worker = Worker(job: nat, remembered: Option<nat>, pinned: Option<nat>, putIssued: bool, putDone: bool)

  datatype Put = Put(job: nat, digest: nat)

  /** A document as `recover` read it, some time ago. */
  datatype Read = Read(job: nat, lease: nat, attempts: nat)

  /**
    `puts` are the PUTs ever issued to a job's storage key, `objects` the digests now stored there.
    `copies` are the jobs whose derived file row exists, `removing` those whose removal has begun.
    `selected` are jobs cleanup has picked, `doomed` those it has issued a DELETE for.
  */
  datatype State = State(
    store: Store,
    now: int,
    tokens: nat,
    workers: map<nat, Worker>,
    observed: set<Read>,
    puts: set<Put>,
    objects: map<nat, nat>,
    copies: set<nat>,
    removing: set<nat>,
    selected: set<nat>,
    doomed: set<nat>)

  datatype Action =
    | Tick(until: int)
    | SubmitJob(id: nat, request: Request, fingerprint: nat, kind: Kind, at: int, authorised: bool)
    | ClaimJob(id: nat, at: int, approved: bool)
    | ReadExpired(id: nat, at: int, approved: bool)
    | RecoverJob(read: Read, at: int)
    | CancelJob(id: nat, authorised: bool)
    | FailJob(token: nat, at: int)
    | PublishScan(token: nat, at: int, authorised: bool, findings: seq<nat>)
    | PinDigest(token: nat, at: int, digest: nat, authorised: bool)
    | IssuePut(token: nat)
    | LandOwnPut(token: nat)
    | LandLatePut(put: Put)
    | PublishSanitized(token: nat, at: int, authorised: bool, admitted: bool)
    | SelectCleanup(id: nat)
    | IssueDelete(id: nat)
    | LandDelete(id: nat)
    | BeginRemoval(id: nat, tombstone: bool)
    | RemoveObject(id: nat)
    | RemoveRow(id: nat)

  /** Clock readings are taken before the write they guard. */
  function At(action: Action): Option<int> {
    match action
    case SubmitJob(_, _, _, _, at, _) => Some(at)
    case ClaimJob(_, at, _) => Some(at)
    case ReadExpired(_, at, _) => Some(at)
    case RecoverJob(_, at) => Some(at)
    case FailJob(_, at) => Some(at)
    case PublishScan(_, at, _, _) => Some(at)
    case PinDigest(_, at, _, _) => Some(at)
    case PublishSanitized(_, at, _, _) => Some(at)
    case _ => None
  }

  function KindOf(s: State, token: nat): Option<Kind> {
    if token in s.workers && s.workers[token].job in s.store.jobs then Some(s.store.jobs[s.workers[token].job].kind) else None
  }

  // ----- Jobs -----

  ghost function Submitted(s: State, id: nat, request: Request, fingerprint: nat, kind: Kind, at: int,
          authorised: bool): State {
    if id in s.store.jobs then s
    else
      var admission := Submit(s.store, id, request, fingerprint, kind, at, authorised);
      if admission.Created? then s.(store := admission.store) else s
  }

  /** The random token of a claim is new, and the worker keeps the document the claim returned. */
  function ClaimedBy(s: State, id: nat, at: int, approved: bool): State {
    if !Claimable(s.store, id, approved) then s
    else
      s.(store := Claim(s.store, id, s.tokens, at, approved), tokens := s.tokens + 1,
         workers := s.workers[s.tokens := Worker(id, s.store.jobs[id].outputDigest, None, false, false)])
  }

  function ReadBy(s: State, id: nat, at: int, approved: bool): State {
    if Expired(s.store, id, at, approved) && s.store.jobs[id].lease.Some? then
      s.(observed := s.observed + {Read(id, s.store.jobs[id].lease.value, s.store.jobs[id].attempts)})
    else s
  }

  function Recovered(s: State, read: Read, at: int): State {
    if read in s.observed then s.(store := Recover(s.store, read.job, Some(read.lease), read.attempts, at)) else s
  }

  function FailedBy(s: State, token: nat, at: int): State {
    if token in s.workers then s.(store := Terminate(s.store, s.workers[token].job, token, at)) else s
  }

  function ScanPublished(s: State, token: nat, at: int, authorised: bool, findings: seq<nat>): State {
    if KindOf(s, token) == Some(Scan) then
      s.(store := Publish(s.store, s.workers[token].job, token, at, authorised, findings))
    else s
  }

  // ----- Sanitized copies -----

  function Pinned(s: State, token: nat, at: int, digest: nat, authorised: bool): State {
    if KindOf(s, token) == Some(Sanitize) && s.workers[token].pinned.None? then
      var w := s.workers[token];
      match PinOutput(s.store, w.job, token, at, w.remembered, digest, authorised)
      case None => s
      case Some(store) => s.(store := store, workers := s.workers[token := w.(pinned := Some(digest))])
    else s
  }

  function PutIssued(s: State, token: nat): State {
    if token in s.workers && s.workers[token].pinned.Some? then
      var w := s.workers[token];
      s.(puts := s.puts + {Put(w.job, w.pinned.value)}, workers := s.workers[token := w.(putIssued := true)])
    else s
  }

  function PutLanded(s: State, token: nat): State {
    if token in s.workers && s.workers[token].putIssued && s.workers[token].pinned.Some? then
      var w := s.workers[token];
      s.(objects := s.objects[w.job := w.pinned.value], workers := s.workers[token := w.(putDone := true)])
    else s
  }

  /** The PUT is acknowledged before the second transaction begins. */
  function CopyPublished(s: State, token: nat, at: int, authorised: bool, admitted: bool): State {
    if KindOf(s, token) == Some(Sanitize) && s.workers[token].putDone then
      var w := s.workers[token];
      match PublishCopy(s.store, w.job, token, at, authorised, admitted)
      case None => s
      case Some(store) => s.(store := store, copies := s.copies + {w.job})
    else s
  }

  /** A step that is not enabled changes nothing, like the conditional write it stands for. */
  ghost function Step(s: State, action: Action): State {
    if At(action).Some? && At(action).value > s.now then s
    else
      match action
      case Tick(until) => if until >= s.now then s.(now := until) else s
      case SubmitJob(id, request, fingerprint, kind, at, authorised) => Submitted(s, id, request, fingerprint, kind, at, authorised)
      case ClaimJob(id, at, approved) => ClaimedBy(s, id, at, approved)
      case ReadExpired(id, at, approved) => ReadBy(s, id, at, approved)
      case RecoverJob(read, at) => Recovered(s, read, at)
      case CancelJob(id, authorised) => s.(store := Cancel(s.store, id, authorised))
      case FailJob(token, at) => FailedBy(s, token, at)
      case PublishScan(token, at, authorised, findings) => ScanPublished(s, token, at, authorised, findings)
      case PinDigest(token, at, digest, authorised) => Pinned(s, token, at, digest, authorised)
      case IssuePut(token) => PutIssued(s, token)
      case LandOwnPut(token) => PutLanded(s, token)
      case LandLatePut(put) => if put in s.puts then s.(objects := s.objects[put.job := put.digest]) else s
      case PublishSanitized(token, at, authorised, admitted) => CopyPublished(s, token, at, authorised, admitted)
      case SelectCleanup(id) => if NeedsCleanup(s.store, id) then s.(selected := s.selected + {id}) else s
      case IssueDelete(id) => if id in s.selected && id !in s.copies then s.(doomed := s.doomed + {id}) else s
      case LandDelete(id) => if id in s.doomed then s.(objects := s.objects - {id}) else s
      case BeginRemoval(id, tombstone) =>
        if id in s.copies then
          s.(store := if tombstone then Tombstone(s.store, id) else s.store, removing := s.removing + {id})
        else s
      case RemoveObject(id) => if id in s.removing then s.(objects := s.objects - {id}) else s
      case RemoveRow(id) => if id in s.removing then s.(copies := s.copies - {id}) else s
  }

  function Initial(now: int): State {
    State(Store(map[], map[], []), now, 0, map[], {}, {}, map[], {}, {}, {}, {})
  }

  ghost function Run(trace: seq<Action>, now: int): State {
    if trace == [] then Initial(now) else Step(Run(trace[..|trace| - 1], now), trace[|trace| - 1])
  }

  // ----- The invariant -----

  predicate LeaseOk(s: State, id: nat)
    requires id in s.store.jobs
  {
    s.store.jobs[id].lease.Some? ==>
      s.store.jobs[id].lease.value in s.workers && s.workers[s.store.jobs[id].lease.value].job == id
  }

  predicate Holds(s: State, token: nat)
    requires token in s.workers
  {
    s.workers[token].job in s.store.jobs && s.store.jobs[s.workers[token].job].lease == Some(token)
  }

  predicate WorkerOk(s: State, token: nat)
    requires token in s.workers
  {
    var w := s.workers[token];
    && token < s.tokens
    && w.job in s.store.jobs
    && (w.pinned.Some? ==> s.store.jobs[w.job].outputDigest == w.pinned && s.store.jobs[w.job].kind == Sanitize)
    && (w.pinned.None? && Holds(s, token) ==> s.store.jobs[w.job].outputDigest == w.remembered)
    && (w.putIssued ==> w.pinned.Some?)
    && (w.putDone ==> w.putIssued)
    && (w.putDone && Holds(s, token) ==> w.job in s.objects)
  }

  predicate ReadOk(s: State, read: Read) {
    && read.lease < s.tokens
    && read.job in s.store.jobs
    && (s.store.jobs[read.job].lease == Some(read.lease) ==> s.store.jobs[read.job].attempts == read.attempts)
  }

  predicate Inactive(s: State, id: nat) {
    id in s.store.jobs && !s.store.jobs[id].active
  }

  predicate Digest(s: State, id: nat, digest: nat) {
    id in s.store.jobs && s.store.jobs[id].outputDigest == Some(digest)
  }

  predicate CopyOk(s: State, id: nat) {
    && Inactive(s, id) && s.store.jobs[id].kind == Sanitize && s.store.jobs[id].status == Completed
    && (id !in s.removing ==> id in s.objects)
  }

  predicate LeasesOk(s: State) {
    forall id :: id in s.store.jobs ==> LeaseOk(s, id)
  }

  predicate WorkersOk(s: State) {
    forall token :: token in s.workers ==> WorkerOk(s, token)
  }

  predicate ReadsOk(s: State) {
    forall read :: read in s.observed ==> ReadOk(s, read)
  }

  /** Every PUT ever issued, and every stored object, carries the digest pinned in the job. */
  predicate ObjectsOk(s: State) {
    && (forall put :: put in s.puts ==> Digest(s, put.job, put.digest))
    && (forall id :: id in s.objects ==> Digest(s, id, s.objects[id]))
  }

  predicate CopiesOk(s: State) {
    && (forall id :: id in s.copies ==> CopyOk(s, id))
    && (forall id :: id in s.removing ==> Inactive(s, id))
  }

  predicate CleanupOk(s: State) {
    && (forall id :: id in s.selected ==> Inactive(s, id))
    && (forall id :: id in s.doomed ==> Inactive(s, id) && id !in s.copies)
  }

  predicate Inv(s: State) {
    StoreOk(s.store) && LeasesOk(s) && WorkersOk(s) && ReadsOk(s) && ObjectsOk(s) && CopiesOk(s) && CleanupOk(s)
  }

  // ----- Preservation -----

  /**
    How a job may change in one step: nobody but a claim gives out a lease, and it gives out a
    new one; a pinned digest and an inactive job stay as they are.
  */
  predicate JobMoves(a: Job, b: Job, token: nat) {
    && b.kind == a.kind
    && (a.outputDigest.Some? ==> b.outputDigest == a.outputDigest)
    && (b.lease == None || b.lease == Some(token) || (b.lease == a.lease && b.attempts == a.attempts))
    && (!a.active ==> !b.active && b.status == a.status && b.lease == a.lease)
  }

  predicate StoreMoves(a: Store, b: Store, token: nat) {
    && (forall id :: id in a.jobs ==> id in b.jobs && JobMoves(a.jobs[id], b.jobs[id], token))
    && (forall id :: id in b.jobs && id !in a.jobs ==> b.jobs[id].lease.None?)
  }

  /** Reads, PUTs, objects and cleanup depend only on what such changes keep. */
  lemma MovesKeepRest(s: State, t: State)
    requires Inv(s) && StoreMoves(s.store, t.store, s.tokens) && s.tokens <= t.tokens
    ensures t.observed == s.observed ==> ReadsOk(t)
    ensures t.puts == s.puts && t.objects == s.objects ==> ObjectsOk(t)
    ensures t.copies == s.copies && t.removing == s.removing && s.objects.Keys <= t.objects.Keys ==> CopiesOk(t)
    ensures t.selected == s.selected && t.doomed == s.doomed && t.copies == s.copies ==> CleanupOk(t)
  {
    hide StoreOk;
    forall read | read in s.observed ensures ReadOk(t, read) { assert ReadOk(s, read); }
    forall put | put in s.puts ensures Digest(t, put.job, put.digest) { assert Digest(s, put.job, put.digest); }
    forall id | id in s.objects ensures Digest(t, id, s.objects[id]) { assert Digest(s, id, s.objects[id]); }
    forall id | id in s.copies && t.removing == s.removing && s.objects.Keys <= t.objects.Keys ensures CopyOk(t, id) {
      assert CopyOk(s, id);
    }
    forall id | id in s.removing + s.selected + s.doomed ensures Inactive(t, id) { assert Inactive(s, id); }
  }

  /** Steps that change only jobs, without a claim or a pin. */
  predicate NoNewLease(a: Store, b: Store) {
    forall id :: id in b.jobs && b.jobs[id].lease.Some? ==>
      id in a.jobs && b.jobs[id].lease == a.jobs[id].lease && b.jobs[id].outputDigest == a.jobs[id].outputDigest
  }

  lemma StoreStepKeepsInv(s: State, store: Store)
    requires Inv(s) && StoreOk(store) && StoreMoves(s.store, store, s.tokens) && NoNewLease(s.store, store)
    ensures Inv(s.(store := store))
  {
    hide StoreOk;
    var t := s.(store := store);
    MovesKeepRest(s, t);
    forall id | id in t.store.jobs ensures LeaseOk(t, id) {
      if t.store.jobs[id].lease.Some? { assert LeaseOk(s, id); }
    }
    forall token | token in t.workers ensures WorkerOk(t, token) {
      assert WorkerOk(s, token);
    }
  }

  lemma JobOf(s: Store, id: nat)
    requires StoreOk(s) && id in s.jobs
    ensures JobOk(s.jobs[id])
  {
    assert RowOk(s, id);
  }

  /** One job is replaced, and all others stay. */
  lemma OneJobMoves(a: Store, b: Store, id: nat, token: nat)
    requires id in a.jobs && id in b.jobs && b.jobs == a.jobs[id := b.jobs[id]] && JobMoves(a.jobs[id], b.jobs[id], token)
    ensures StoreMoves(a, b, token)
    ensures b.jobs[id].lease.None? || (b.jobs[id].lease == a.jobs[id].lease && b.jobs[id].outputDigest == a.jobs[id].outputDigest)
            ==> NoNewLease(a, b)
  {
  }

  lemma SubmitKeepsInv(s: State, id: nat, request: Request, fingerprint: nat, kind: Kind, at: int, authorised: bool)
    requires Inv(s)
    ensures Inv(Submitted(s, id, request, fingerprint, kind, at, authorised))
  {
    hide StoreOk, LeasesOk, WorkersOk, ReadsOk, ObjectsOk, CopiesOk, CleanupOk, AdmissionOk, FindRequest, CreatedSince, Busy;
    var t := Submitted(s, id, request, fingerprint, kind, at, authorised);
    if t != s {
      SubmitKeepsStore(s.store, id, request, fingerprint, kind, at, authorised);
      StoreStepKeepsInv(s, t.store);
    }
  }

  lemma ClaimKeepsInv(s: State, id: nat, at: int, approved: bool)
    requires Inv(s)
    ensures Inv(ClaimedBy(s, id, at, approved))
  {
    hide StoreOk;
    var t := ClaimedBy(s, id, at, approved);
    if t != s {
      ClaimKeepsStore(s.store, id, s.tokens, at, approved);
      JobOf(s.store, id);
      OneJobMoves(s.store, t.store, id, s.tokens);
      MovesKeepRest(s, t);
      hide ReadsOk, ObjectsOk, CopiesOk, CleanupOk, StoreMoves;
      forall x | x in t.store.jobs ensures LeaseOk(t, x) {
        assert LeaseOk(s, x);
      }
      forall token | token in t.workers ensures WorkerOk(t, token) {
        if token != s.tokens { assert WorkerOk(s, token); }
      }
    }
  }

  lemma PinKeepsInv(s: State, token: nat, at: int, digest: nat, authorised: bool)
    requires Inv(s)
    ensures Inv(Pinned(s, token, at, digest, authorised))
  {
    hide StoreOk;
    var t := Pinned(s, token, at, digest, authorised);
    if t != s {
      var id := s.workers[token].job;
      assert WorkerOk(s, token) && Holds(s, token);
      PinKeepsStore(s.store, id, token, at, s.workers[token].remembered, digest, authorised);
      OneJobMoves(s.store, t.store, id, s.tokens);
      MovesKeepRest(s, t);
      hide ReadsOk, ObjectsOk, CopiesOk, CleanupOk, StoreMoves;
      forall x | x in t.store.jobs ensures LeaseOk(t, x) {
        assert LeaseOk(s, x);
      }
      forall other | other in t.workers ensures WorkerOk(t, other) {
        assert WorkerOk(s, other);
      }
    }
  }

  lemma RecoverKeepsInv(s: State, read: Read, at: int)
    requires Inv(s)
    ensures Inv(Recovered(s, read, at))
  {
    hide StoreOk;
    var t := Recovered(s, read, at);
    if t != s {
      assert ReadOk(s, read);
      JobOf(s.store, read.job);
      RecoverKeepsStore(s.store, read.job, Some(read.lease), read.attempts, at);
      OneJobMoves(s.store, t.store, read.job, s.tokens);
      hide Inv, StoreMoves, NoNewLease;
      StoreStepKeepsInv(s, t.store);
    }
  }

  lemma CancelKeepsInv(s: State, id: nat, authorised: bool)
    requires Inv(s)
    ensures Inv(s.(store := Cancel(s.store, id, authorised)))
  {
    hide StoreOk, LeasesOk, WorkersOk, ReadsOk, ObjectsOk, CopiesOk, CleanupOk;
    var store := Cancel(s.store, id, authorised);
    CancelKeepsStore(s.store, id, authorised);
    if store != s.store {
      OneJobMoves(s.store, store, id, s.tokens);
      StoreStepKeepsInv(s, store);
    }
  }

  lemma FailKeepsInv(s: State, token: nat, at: int)
    requires Inv(s)
    ensures Inv(FailedBy(s, token, at))
  {
    hide StoreOk, LeasesOk, WorkersOk, ReadsOk, ObjectsOk, CopiesOk, CleanupOk;
    var t := FailedBy(s, token, at);
    if t != s {
      TerminateKeepsStore(s.store, s.workers[token].job, token, at);
      OneJobMoves(s.store, t.store, s.workers[token].job, s.tokens);
      StoreStepKeepsInv(s, t.store);
    }
  }

  lemma ScanKeepsInv(s: State, token: nat, at: int, authorised: bool, findings: seq<nat>)
    requires Inv(s)
    ensures Inv(ScanPublished(s, token, at, authorised, findings))
  {
    hide StoreOk, LeasesOk, WorkersOk, ReadsOk, ObjectsOk, CopiesOk, CleanupOk;
    var t := ScanPublished(s, token, at, authorised, findings);
    if KindOf(s, token) == Some(Scan) {
      PublishKeepsStore(s.store, s.workers[token].job, token, at, authorised, findings);
      if t.store.jobs != s.store.jobs {
        OneJobMoves(s.store, t.store, s.workers[token].job, s.tokens);
      }
      StoreStepKeepsInv(s, t.store);
    }
  }

  lemma CopyKeepsInv(s: State, token: nat, at: int, authorised: bool, admitted: bool)
    requires Inv(s)
    ensures Inv(CopyPublished(s, token, at, authorised, admitted))
  {
    hide StoreOk, LeasesOk, WorkersOk, ReadsOk, ObjectsOk, CopiesOk, CleanupOk, StoreMoves, NoNewLease, CopyOk, Inactive, Claimed;
    var t := CopyPublished(s, token, at, authorised, admitted);
    if t != s {
      var id := s.workers[token].job;
      PublishCopyKeepsStore(s.store, id, token, at, authorised, admitted);
      PublishedJob(s, token, at, authorised, admitted);
      OneJobMoves(s.store, t.store, id, s.tokens);
      StoreStepKeepsInv(s, t.store);
      NewCopy(s.(store := t.store), id);
    }
  }

  /** A copy is published by the lease holder after its PUT, for a job that cleanup has not chosen. */
  lemma PublishedJob(s: State, token: nat, at: int, authorised: bool, admitted: bool)
    requires Inv(s) && CopyPublished(s, token, at, authorised, admitted) != s
    ensures var id, t := s.workers[token].job, CopyPublished(s, token, at, authorised, admitted);
            && id in s.store.jobs && id in t.store.jobs && t.store.jobs == s.store.jobs[id := t.store.jobs[id]]
            && JobMoves(s.store.jobs[id], t.store.jobs[id], s.tokens) && t.store.jobs[id].lease.None?
            && CopyOk(s.(store := t.store), id) && id !in s.doomed
  {
    hide StoreOk, LeasesOk, ReadsOk, ObjectsOk;
    assert WorkerOk(s, token) && Holds(s, token);
  }

  lemma NewCopy(u: State, id: nat)
    requires Inv(u) && CopyOk(u, id) && id !in u.doomed
    ensures Inv(u.(copies := u.copies + {id}))
  {
    hide StoreOk;
    var t := u.(copies := u.copies + {id});
    forall x | x in t.store.jobs ensures LeaseOk(t, x) { assert LeaseOk(u, x); }
    forall x | x in t.workers ensures WorkerOk(t, x) { assert WorkerOk(u, x); }
    forall r | r in t.observed ensures ReadOk(t, r) { assert ReadOk(u, r); }
    SameObjects(u, t);
    forall x | x in t.copies ensures CopyOk(t, x) { if x != id { assert CopyOk(u, x); } }
    forall x | x in t.removing + t.selected + t.doomed ensures Inactive(t, x) { assert Inactive(u, x); }
  }

  lemma SameObjects(u: State, t: State)
    requires ObjectsOk(u) && t.store.jobs == u.store.jobs
    ensures t.puts == u.puts && t.objects == u.objects ==> ObjectsOk(t)
  {
    assert forall put :: put in u.puts ==> Digest(u, put.job, put.digest);
    assert forall id :: id in u.objects ==> Digest(u, id, u.objects[id]);
  }

  /** Everything but objects, PUTs and the workers' own progress stays as it is. */
  predicate SameRecords(s: State, t: State) {
    && t.store == s.store && t.observed == s.observed && t.tokens == s.tokens && t.workers.Keys == s.workers.Keys
    && t.copies == s.copies && t.removing == s.removing && t.selected == s.selected && t.doomed == s.doomed
  }

  lemma WorkerStepKeepsInv(s: State, t: State, token: nat)
    requires Inv(s) && SameRecords(s, t) && s.objects.Keys <= t.objects.Keys
    requires token in s.workers && t.workers == s.workers[token := t.workers[token]] && WorkerOk(t, token)
    requires t.workers[token].job == s.workers[token].job && ObjectsOk(t)
    ensures Inv(t)
  {
    hide StoreOk, ObjectsOk;
    forall id | id in t.store.jobs ensures LeaseOk(t, id) { assert LeaseOk(s, id); }
    forall other | other in t.workers ensures WorkerOk(t, other) { if other != token { assert WorkerOk(s, other); } }
    forall read | read in t.observed ensures ReadOk(t, read) { assert ReadOk(s, read); }
    forall id | id in t.copies ensures CopyOk(t, id) { assert CopyOk(s, id); }
    forall id | id in t.removing + t.selected + t.doomed ensures Inactive(t, id) { assert Inactive(s, id); }
  }

  lemma PutKeepsInv(s: State, token: nat)
    requires Inv(s)
    ensures Inv(PutIssued(s, token)) && Inv(PutLanded(s, token))
  {
    hide StoreOk, LeasesOk, ReadsOk, CopiesOk, CleanupOk;
    var t, u := PutIssued(s, token), PutLanded(s, token);
    if token in s.workers {
      assert WorkerOk(s, token);
      if t != s {
        WorkerStepKeepsInv(s, t, token) by { assert ObjectsOk(t) by { PutPinned(s, t); } }
      }
      if u != s {
        WorkerStepKeepsInv(s, u, token) by { assert ObjectsOk(u) by { ObjectPinned(s, u, s.workers[token].job); } }
      }
    }
  }

  lemma PutPinned(s: State, t: State)
    requires ObjectsOk(s) && t.store == s.store && t.objects == s.objects
    requires forall put :: put in t.puts && put !in s.puts ==> Digest(s, put.job, put.digest)
    ensures ObjectsOk(t)
  {
    assert forall put :: put in t.puts ==> Digest(s, put.job, put.digest);
    assert forall id :: id in s.objects ==> Digest(s, id, s.objects[id]);
  }

  lemma ObjectPinned(s: State, t: State, id: nat)
    requires ObjectsOk(s) && t.store == s.store && t.puts == s.puts
    requires id in t.objects && t.objects == s.objects[id := t.objects[id]] && Digest(s, id, t.objects[id])
    ensures ObjectsOk(t)
  {
    assert forall put :: put in s.puts ==> Digest(s, put.job, put.digest);
    assert forall x :: x in s.objects ==> Digest(s, x, s.objects[x]);
  }

  /** A late PUT rewrites an object with the bytes it already had, or restores an orphan. */
  lemma LatePutKeepsInv(s: State, put: Put)
    requires Inv(s) && put in s.puts
    ensures Inv(s.(objects := s.objects[put.job := put.digest]))
  {
    var t := s.(objects := s.objects[put.job := put.digest]);
    assert Digest(s, put.job, put.digest);
    ObjectPinned(s, t, put.job);
    hide StoreOk, ObjectsOk;
    MoreObjects(s, t);
  }

  lemma MoreObjects(s: State, t: State)
    requires Inv(s) && t == s.(objects := t.objects) && s.objects.Keys <= t.objects.Keys && ObjectsOk(t)
    ensures Inv(t)
  {
    hide StoreOk, ObjectsOk;
    forall id | id in t.store.jobs ensures LeaseOk(t, id) { assert LeaseOk(s, id); }
    forall token | token in t.workers ensures WorkerOk(t, token) { assert WorkerOk(s, token); }
    forall read | read in t.observed ensures ReadOk(t, read) { assert ReadOk(s, read); }
    forall id | id in t.copies ensures CopyOk(t, id) { assert CopyOk(s, id); }
    forall id | id in t.removing + t.selected + t.doomed ensures Inactive(t, id) { assert Inactive(s, id); }
  }

  /** Removing the object of an inactive job takes it from no lease holder and from no copy that is to stay. */
  lemma DeleteKeepsInv(s: State, id: nat)
    requires Inv(s) && (id in s.doomed || id in s.removing)
    ensures Inv(s.(objects := s.objects - {id}))
  {
    hide StoreOk, JobOk, LeaseOk, WorkerOk, ReadOk, Digest, CopyOk, Inactive;
    DeletableJob(s, id);
    var t := s.(objects := s.objects - {id});
    forall x | x in t.store.jobs ensures LeaseOk(t, x) { SameLease(s, t, x); }
    forall token | token in t.workers ensures WorkerOk(t, token) { WorkerWithoutObject(s, t, id, token); }
    forall r | r in t.observed ensures ReadOk(t, r) { SameRead(s, t, r); }
    forall put | put in t.puts ensures Digest(t, put.job, put.digest) { SameRow(s, t, put.job, put.digest); }
    forall x | x in t.objects ensures Digest(t, x, t.objects[x]) { SameRow(s, t, x, s.objects[x]); }
    forall x | x in t.copies ensures CopyOk(t, x) { CopyWithoutObject(s, t, id, x); }
    forall x | x in t.removing + t.selected + t.doomed ensures Inactive(t, x) { SameRow(s, t, x, 0); }
  }

  lemma DeletableJob(s: State, id: nat)
    requires Inv(s) && (id in s.doomed || id in s.removing)
    ensures id in s.store.jobs && s.store.jobs[id].lease.None?
  {
    assert Inactive(s, id);
    JobOf(s.store, id);
  }

  lemma SameRow(s: State, t: State, id: nat, digest: nat)
    requires t.store == s.store
    ensures Digest(t, id, digest) == Digest(s, id, digest) && Inactive(t, id) == Inactive(s, id)
  {
  }

  lemma WorkerWithoutObject(s: State, t: State, id: nat, token: nat)
    requires token in s.workers && WorkerOk(s, token) && id in s.store.jobs && s.store.jobs[id].lease.None?
    requires t == s.(objects := s.objects - {id})
    ensures WorkerOk(t, token)
  {
  }

  lemma CopyWithoutObject(s: State, t: State, id: nat, x: nat)
    requires CopyOk(s, x) && t == s.(objects := s.objects - {id}) && (x == id ==> id in s.removing)
    ensures CopyOk(t, x)
  {
  }

  lemma ReadKeepsInv(s: State, id: nat, at: int, approved: bool)
    requires Inv(s)
    ensures Inv(ReadBy(s, id, at, approved))
  {
    var t := ReadBy(s, id, at, approved);
    if t != s {
      assert LeaseOk(s, id) && WorkerOk(s, s.store.jobs[id].lease.value);
      hide StoreOk;
      assert LeasesOk(t) by { assert forall x :: x in t.store.jobs ==> LeaseOk(s, x); }
      assert WorkersOk(t) by { assert forall x :: x in t.workers ==> WorkerOk(s, x); }
      forall read | read in t.observed ensures ReadOk(t, read) { if read in s.observed { assert ReadOk(s, read); } }
      SameObjects(s, t);
      forall x | x in t.copies ensures CopyOk(t, x) { assert CopyOk(s, x); }
      forall x | x in t.removing + t.selected + t.doomed ensures Inactive(t, x) { assert Inactive(s, x); }
    }
  }

  /** Ticks, cleanup's picks and DELETEs, and the end of a removal. */
  lemma CleanupKeepsInv(s: State, t: State)
    requires Inv(s) && t == s.(now := t.now, copies := t.copies, selected := t.selected, doomed := t.doomed)
    requires t.copies <= s.copies
    requires forall id :: id in t.selected && id !in s.selected ==> NeedsCleanup(s.store, id)
    requires forall id :: id in t.doomed && id !in s.doomed ==> id in s.selected && id !in s.copies
    ensures Inv(t)
  {
    hide StoreOk, WorkerOk, ReadOk, LeaseOk;
    assert LeasesOk(t) by { hide CopyOk, Inactive, Digest; forall x | x in t.store.jobs ensures LeaseOk(t, x) { SameLease(s, t, x); } }
    assert WorkersOk(t) by { hide CopyOk, Inactive, Digest; forall x | x in t.workers ensures WorkerOk(t, x) { SameWorker(s, t, x); } }
    assert ReadsOk(t) by { hide CopyOk, Inactive, Digest; forall r | r in t.observed ensures ReadOk(t, r) { SameRead(s, t, r); } }
    SameObjects(s, t);
    hide Digest;
    forall x | x in t.copies ensures CopyOk(t, x) { assert CopyOk(s, x); }
    forall x | x in t.removing + t.selected + t.doomed ensures Inactive(t, x) {
      if x in s.removing + s.selected + s.doomed { assert Inactive(s, x); }
    }
  }

  lemma SameLease(s: State, t: State, id: nat)
    requires id in s.store.jobs && LeaseOk(s, id) && t.store == s.store && t.workers == s.workers
    ensures LeaseOk(t, id)
  {
  }

  lemma SameWorker(s: State, t: State, token: nat)
    requires token in s.workers && WorkerOk(s, token)
    requires t.store == s.store && t.workers == s.workers && t.tokens == s.tokens && t.objects == s.objects
    ensures WorkerOk(t, token)
  {
  }

  lemma SameRead(s: State, t: State, read: Read)
    requires ReadOk(s, read) && t.store == s.store && t.tokens == s.tokens
    ensures ReadOk(t, read)
  {
  }

  lemma RemovalKeepsInv(s: State, id: nat, tombstone: bool)
    requires Inv(s) && id in s.copies
    ensures Inv(s.(store := if tombstone then Tombstone(s.store, id) else s.store, removing := s.removing + {id}))
  {
    hide StoreOk;
    var store := if tombstone then Tombstone(s.store, id) else s.store;
    assert CopyOk(s, id);
    TombstoneKeepsStore(s.store, id);
    OneJobMoves(s.store, store, id, s.tokens);
    StoreStepKeepsInv(s, store);
    var u := s.(store := store);
    var t := u.(removing := u.removing + {id});
    assert LeasesOk(t) by { assert forall x :: x in t.store.jobs ==> LeaseOk(u, x); }
    assert WorkersOk(t) by { assert forall x :: x in t.workers ==> WorkerOk(u, x); }
    assert ReadsOk(t) by { assert forall r :: r in t.observed ==> ReadOk(u, r); }
    SameObjects(u, t);
    forall x | x in t.copies ensures CopyOk(t, x) { assert CopyOk(u, x); }
    forall x | x in t.removing + t.selected + t.doomed ensures Inactive(t, x) {
      if x != id { assert Inactive(u, x); } else { assert CopyOk(u, id); }
    }
  }

  lemma StepKeepsInv(s: State, action: Action)
    requires Inv(s)
    ensures Inv(Step(s, action))
  {
    hide Inv, Submitted, ClaimedBy, ReadBy, Recovered, FailedBy, ScanPublished, Pinned, PutIssued, PutLanded, CopyPublished,
      Cancel, Tombstone, NeedsCleanup;
    match action
    case SubmitJob(id, request, fingerprint, kind, at, authorised) =>
      SubmitKeepsInv(s, id, request, fingerprint, kind, at, authorised);
    case ClaimJob(id, at, approved) => ClaimKeepsInv(s, id, at, approved);
    case ReadExpired(id, at, approved) => ReadKeepsInv(s, id, at, approved);
    case RecoverJob(read, at) => RecoverKeepsInv(s, read, at);
    case CancelJob(id, authorised) => CancelKeepsInv(s, id, authorised);
    case FailJob(token, at) => FailKeepsInv(s, token, at);
    case PublishScan(token, at, authorised, findings) => ScanKeepsInv(s, token, at, authorised, findings);
    case PinDigest(token, at, digest, authorised) => PinKeepsInv(s, token, at, digest, authorised);
    case IssuePut(token) => PutKeepsInv(s, token);
    case LandOwnPut(token) => PutKeepsInv(s, token);
    case LandLatePut(put) => if put in s.puts { LatePutKeepsInv(s, put); }
    case PublishSanitized(token, at, authorised, admitted) => CopyKeepsInv(s, token, at, authorised, admitted);
    case LandDelete(id) => if id in s.doomed { DeleteKeepsInv(s, id); }
    case RemoveObject(id) => if id in s.removing { DeleteKeepsInv(s, id); }
    case BeginRemoval(id, tombstone) => if id in s.copies { RemovalKeepsInv(s, id, tombstone); }
    case _ => CleanupKeepsInv(s, Step(s, action));
  }

  lemma {:induction false} RunKeepsInv(trace: seq<Action>, now: int)
    ensures Inv(Run(trace, now))
  {
    if trace == [] {
      InitialInv(now);
    } else {
      hide Step, Inv;
      RunKeepsInv(trace[..|trace| - 1], now);
      StepKeepsInv(Run(trace[..|trace| - 1], now), trace[|trace| - 1]);
    }
  }

  lemma InitialInv(now: int)
    ensures Inv(Initial(now))
  {
  }
}
