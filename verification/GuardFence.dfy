/**
  Guard transactions under snapshot isolation with first-committer-wins on written documents.
  A transaction reads the documents as they were when it began; it commits only if nobody has
  since committed a write to a document it writes. Other transactions write anything at any time.
*/
module GuardFence {
  import opened Wrappers
  import opened GuardJobs

  datatype Role = Owner | Member

  datatype Key = UserKey(id: nat) | CompanyKey(id: nat) | FileKey(id: nat) | RecordKey(id: nat)

  datatype Doc =
    | UserDoc(companyId: nat, role: Role, fence: nat)
    | CompanyDoc(activated: bool, suspended: bool, fence: nat)
    | FileDoc(companyId: nat, uploader: nat, companyWide: bool, restricted: set<nat>, source: Option<nat>, fence: nat)
    | RecordDoc(value: nat)

  type Docs = map<Key, Doc>

  /** What a job needs: its requester, its company and its source file. */
  datatype Access = Access(user: nat, company: nat, file: nat)

  /** An admitted job: the rate limit reads nothing else of it. */
  datatype Admitted = Admitted(company: nat, createdAt: int)

  datatype Tx = Tx(
    guard: bool,
    docs: Docs,
    stamps: map<Key, nat>,
    seen: nat,
    writes: map<Key, Option<Doc>>,
    resolved: Option<Access>,
    fenced: bool,
    admission: Option<Admitted>)

  /** `stamps` says which commit last wrote a document; `admitted` are the jobs in commit order. */
  datatype State = State(docs: Docs, stamps: map<Key, nat>, clock: nat, admitted: seq<Admitted>, open: map<nat, Tx>)

  datatype Action =
    | Begin(id: nat, guard: bool)
    | Resolve(id: nat, access: Access, omitted: set<Key>)
    | Admit(id: nat, at: int, createdAt: int)
    | Record(id: nat, key: Key, row: Doc)
    | Write(id: nat, key: Key, doc: Option<Doc>)
    | Commit(id: nat)
    | Abort(id: nat)

  // ----- Authorisation (resolve, processingSource, assertLineage, accessFilter) -----

  predicate Visible(docs: Docs, file: nat, user: nat, company: nat, role: Role) {
    && FileKey(file) in docs && docs[FileKey(file)].FileDoc?
    && var doc := docs[FileKey(file)];
       doc.companyId == company && (role == Owner || doc.companyWide || doc.uploader == user || user in doc.restricted)
  }

  function SourceOf(docs: Docs, file: nat): Option<nat> {
    if FileKey(file) in docs && docs[FileKey(file)].FileDoc? then docs[FileKey(file)].source else None
  }

  predicate Authorised(docs: Docs, a: Access) {
    && UserKey(a.user) in docs && docs[UserKey(a.user)].UserDoc? && docs[UserKey(a.user)].companyId == a.company
    && CompanyKey(a.company) in docs && docs[CompanyKey(a.company)].CompanyDoc?
    && docs[CompanyKey(a.company)].activated && !docs[CompanyKey(a.company)].suspended
    && Visible(docs, a.file, a.user, a.company, docs[UserKey(a.user)].role)
    && var source := SourceOf(docs, a.file);
       source.Some? ==>
         && Visible(docs, source.value, a.user, a.company, docs[UserKey(a.user)].role)
         && SourceOf(docs, source.value).None?
  }

  function Fence(docs: Docs, key: Key): Option<Doc> {
    if key !in docs then None
    else
      match docs[key]
      case UserDoc(company, role, fence) => Some(UserDoc(company, role, fence + 1))
      case CompanyDoc(activated, suspended, fence) => Some(CompanyDoc(activated, suspended, fence + 1))
      case FileDoc(company, uploader, wide, restricted, source, fence) =>
        Some(FileDoc(company, uploader, wide, restricted, source, fence + 1))
      case RecordDoc(_) => Some(docs[key])
  }

  /** The documents resolve writes when it is given a session. */
  function FenceKeys(docs: Docs, a: Access): set<Key> {
    {UserKey(a.user), CompanyKey(a.company), FileKey(a.file)} +
    match SourceOf(docs, a.file) case Some(source) => {FileKey(source)} case None => {}
  }

  function Fences(docs: Docs, a: Access): map<Key, Option<Doc>> {
    map key | key in FenceKeys(docs, a) :: Fence(docs, key)
  }

  // ----- Steps -----

  function Stamp(stamps: map<Key, nat>, key: Key): nat {
    if key in stamps then stamps[key] else 0
  }

  /** No other commit has written a document this transaction writes. */
  predicate Committable(s: State, id: nat) {
    && id in s.open
    && forall key :: key in s.open[id].writes ==> Stamp(s.open[id].stamps, key) == Stamp(s.stamps, key)
  }

  function Apply(docs: Docs, writes: map<Key, Option<Doc>>): Docs {
    map key | key in docs.Keys + writes.Keys && (key in writes ==> writes[key].Some?) ::
      if key in writes then writes[key].value else docs[key]
  }

  function Stamped(stamps: map<Key, nat>, writes: map<Key, Option<Doc>>, clock: nat): map<Key, nat> {
    map key | key in stamps.Keys + writes.Keys :: if key in writes then clock else stamps[key]
  }

  function Count(admitted: seq<Admitted>, company: nat, lo: int, hi: Option<int>): nat {
    if admitted == [] then 0
    else
      var last := admitted[|admitted| - 1];
      Count(admitted[..|admitted| - 1], company, lo, hi) +
      if last.company == company && lo <= last.createdAt && (hi.Some? ==> last.createdAt <= hi.value) then 1 else 0
  }

  /** How many jobs of the company were created in the minute that begins at `from`. */
  function InMinute(admitted: seq<Admitted>, company: nat, from: int): nat {
    Count(admitted, company, from, Some(from + RATE_WINDOW_MS))
  }

  function Closed(s: State, id: nat): State {
    s.(open := s.open - {id})
  }

  /** resolve with a session writes every fence; `omitted` are fences that a weaker one would only read. */
  function Resolved(s: State, id: nat, access: Access, omitted: set<Key>): State
    requires id in s.open
  {
    var tx := s.open[id];
    if !tx.guard || tx.resolved.Some? then s
    else if !Authorised(tx.docs, access) then Closed(s, id)
    else
      s.(open := s.open[id := tx.(resolved := Some(access), fenced := omitted !! FenceKeys(tx.docs, access),
                                  writes := tx.writes + (Fences(tx.docs, access) - omitted))])
  }

  /** The count of the last minute is taken in the snapshot; the job is stamped when it is created, no earlier. */
  function Admitting(s: State, id: nat, at: int, createdAt: int): State
    requires id in s.open
  {
    var tx := s.open[id];
    if tx.resolved.None? || !tx.fenced || tx.admission.Some? || createdAt < at || tx.seen > |s.admitted| then s
    else if Count(s.admitted[..tx.seen], tx.resolved.value.company, at - RATE_WINDOW_MS, None) >= RATE_LIMIT then Closed(s, id)
    else s.(open := s.open[id := tx.(admission := Some(Admitted(tx.resolved.value.company, createdAt)))])
  }

  function Committed(s: State, id: nat): State
    requires id in s.open
  {
    var tx := s.open[id];
    State(Apply(s.docs, tx.writes), Stamped(s.stamps, tx.writes, s.clock + 1), s.clock + 1,
          if tx.admission.Some? then s.admitted + [tx.admission.value] else s.admitted, s.open - {id})
  }

  /** A guard transaction writes fences, its own records and a file that did not exist; others write anything. */
  function Step(s: State, action: Action): State {
    if action.Begin? then
      if action.id in s.open then s
      else s.(open := s.open[action.id := Tx(action.guard, s.docs, s.stamps, |s.admitted|, map[], None, false, None)])
    else if action.id !in s.open then s
    else
      var id, tx := action.id, s.open[action.id];
      match action
      case Resolve(_, access, omitted) => Resolved(s, id, access, omitted)
      case Admit(_, at, createdAt) => Admitting(s, id, at, createdAt)
      case Record(_, key, doc) =>
        if tx.guard && (key.RecordKey? || (key.FileKey? && key !in tx.docs)) && key !in tx.writes then
          s.(open := s.open[id := tx.(writes := tx.writes[key := Some(doc)])])
        else s
      case Write(_, key, doc) => if tx.guard then s else s.(open := s.open[id := tx.(writes := tx.writes[key := doc])])
      case Commit(_) => if Committable(s, id) then Committed(s, id) else Closed(s, id)
      case Abort(_) => Closed(s, id)
  }

  function Initial(docs: Docs): State {
    State(docs, map[], 0, [], map[])
  }

  function Run(docs: Docs, trace: seq<Action>): State {
    if trace == [] then Initial(docs) else Step(Run(docs, trace[..|trace| - 1]), trace[|trace| - 1])
  }

  // ----- The invariant -----

  function Get(docs: Docs, key: Key): Option<Doc> {
    if key in docs then Some(docs[key]) else None
  }

  /** A document whose stamp has not moved since the snapshot is as it was in the snapshot. */
  ghost predicate SnapshotOk(s: State, tx: Tx) {
    && (forall key :: Stamp(tx.stamps, key) <= s.clock)
    && (forall key :: Stamp(tx.stamps, key) == Stamp(s.stamps, key) ==> Get(s.docs, key) == Get(tx.docs, key))
  }

  predicate NoneSince(s: State, tx: Tx, company: nat) {
    forall i :: tx.seen <= i < |s.admitted| ==> s.admitted[i].company != company
  }

  /** No job of a company was admitted since the snapshot unless the company document was fenced again. */
  ghost predicate SeenOk(s: State, tx: Tx) {
    && tx.seen <= |s.admitted|
    && forall company :: Stamp(tx.stamps, CompanyKey(company)) == Stamp(s.stamps, CompanyKey(company)) ==> NoneSince(s, tx, company)
  }

  predicate ResolvedOk(tx: Tx) {
    tx.resolved.Some? && tx.fenced ==>
      Authorised(tx.docs, tx.resolved.value) && FenceKeys(tx.docs, tx.resolved.value) <= tx.writes.Keys
  }

  ghost predicate AdmissionOk(s: State, tx: Tx) {
    tx.admission.Some? ==>
      && tx.resolved.Some? && tx.fenced && tx.seen <= |s.admitted|
      && tx.admission.value.company == tx.resolved.value.company
      && Count(s.admitted[..tx.seen], tx.admission.value.company, tx.admission.value.createdAt - RATE_WINDOW_MS, None) < RATE_LIMIT
  }

  ghost predicate TxOk(s: State, tx: Tx) {
    SnapshotOk(s, tx) && SeenOk(s, tx) && ResolvedOk(tx) && AdmissionOk(s, tx)
  }

  ghost predicate RateOk(admitted: seq<Admitted>) {
    forall company, from :: InMinute(admitted, company, from) <= RATE_LIMIT
  }

  ghost predicate Inv(s: State) {
    && (forall key :: Stamp(s.stamps, key) <= s.clock)
    && (forall id :: id in s.open ==> TxOk(s, s.open[id]))
    && RateOk(s.admitted)
  }

  lemma {:induction false} CountMonotone(admitted: seq<Admitted>, company: nat, lo: int, hi: Option<int>, lower: int)
    requires lower <= lo
    ensures Count(admitted, company, lo, hi) <= Count(admitted, company, lower, None)
  {
    if admitted != [] {
      CountMonotone(admitted[..|admitted| - 1], company, lo, hi, lower);
    }
  }

  lemma {:induction false} CountUnseen(admitted: seq<Admitted>, seen: nat, company: nat, lo: int, hi: Option<int>)
    requires seen <= |admitted| && forall i :: seen <= i < |admitted| ==> admitted[i].company != company
    ensures Count(admitted, company, lo, hi) == Count(admitted[..seen], company, lo, hi)
    decreases |admitted|
  {
    if seen < |admitted| {
      CountUnseen(admitted[..|admitted| - 1], seen, company, lo, hi);
      assert admitted[..|admitted| - 1][..seen] == admitted[..seen];
    } else {
      assert admitted[..seen] == admitted;
    }
  }

  /** The last job of a window saw all the others, so a window that admits it held fewer than ten. */
  lemma AdmissionKeepsRate(s: State, id: nat)
    requires Inv(s) && Committable(s, id) && s.open[id].admission.Some?
    ensures RateOk(s.admitted + [s.open[id].admission.value])
  {
    var tx := s.open[id];
    var job := tx.admission.value;
    assert TxOk(s, tx) && CompanyKey(job.company) in tx.writes;
    assert NoneSince(s, tx, job.company);
    var more := s.admitted + [job];
    assert more[..|more| - 1] == s.admitted;
    forall company, from ensures InMinute(more, company, from) <= RATE_LIMIT {
      assert InMinute(s.admitted, company, from) <= RATE_LIMIT;
      if company == job.company && from <= job.createdAt <= from + RATE_WINDOW_MS {
        CountUnseen(s.admitted, tx.seen, company, from, Some(from + RATE_WINDOW_MS));
        CountMonotone(s.admitted[..tx.seen], company, from, Some(from + RATE_WINDOW_MS), job.createdAt - RATE_WINDOW_MS);
      }
    }
  }

  lemma OtherSurvivesCommit(s: State, id: nat, other: Tx)
    requires Inv(s) && Committable(s, id) && TxOk(s, other)
    ensures TxOk(Committed(s, id), other)
  {
    hide Count, Authorised, RateOk;
    var tx, t := s.open[id], Committed(s, id);
    assert TxOk(s, tx);
    forall key ensures Stamp(t.stamps, key) == if key in tx.writes then s.clock + 1 else Stamp(s.stamps, key) { }
    forall key | Stamp(other.stamps, key) == Stamp(t.stamps, key) ensures Get(t.docs, key) == Get(other.docs, key) {
      assert key !in tx.writes;
    }
    forall company | Stamp(other.stamps, CompanyKey(company)) == Stamp(t.stamps, CompanyKey(company))
      ensures NoneSince(t, other, company)
    {
      assert CompanyKey(company) !in tx.writes;
      assert NoneSince(s, other, company);
    }
    assert t.admitted[..other.seen] == s.admitted[..other.seen];
  }

  lemma CommitKeepsInv(s: State, id: nat)
    requires Inv(s) && Committable(s, id)
    ensures Inv(Committed(s, id))
  {
    hide TxOk, RateOk;
    var t := Committed(s, id);
    forall other | other in t.open ensures TxOk(t, t.open[other]) {
      OtherSurvivesCommit(s, id, s.open[other]);
    }
    forall key ensures Stamp(t.stamps, key) <= t.clock { assert Stamp(s.stamps, key) <= s.clock; }
    if s.open[id].admission.Some? {
      AdmissionKeepsRate(s, id);
    }
  }

  /** A step inside one transaction leaves the others and the committed state alone. */
  lemma LocalKeepsInv(s: State, t: State, id: nat)
    requires Inv(s) && t == s.(open := t.open) && t.open.Keys - {id} <= s.open.Keys
    requires forall other :: other in t.open && other != id ==> t.open[other] == s.open[other]
    requires id in t.open ==> TxOk(s, t.open[id])
    ensures Inv(t)
  {
    hide SnapshotOk, SeenOk, AdmissionOk, ResolvedOk, RateOk;
    forall other | other in t.open ensures TxOk(t, t.open[other]) {
      assert TxOk(s, t.open[other]);
      SameTxOk(s, t, t.open[other]);
    }
  }

  lemma SameTxOk(s: State, t: State, tx: Tx)
    requires TxOk(s, tx) && t == s.(open := t.open)
    ensures TxOk(t, tx)
  {
    hide Count, Authorised;
  }

  lemma BeginIsOk(s: State, guard: bool)
    requires Inv(s)
    ensures TxOk(s, Tx(guard, s.docs, s.stamps, |s.admitted|, map[], None, false, None))
  {
  }

  lemma ResolveIsOk(s: State, id: nat, access: Access, omitted: set<Key>)
    requires id in s.open && TxOk(s, s.open[id]) && s.open[id].admission.None?
    ensures id in Resolved(s, id, access, omitted).open ==> TxOk(s, Resolved(s, id, access, omitted).open[id])
  {
    hide Authorised, Fence, SourceOf;
  }

  lemma AdmitIsOk(s: State, id: nat, at: int, createdAt: int)
    requires id in s.open && TxOk(s, s.open[id])
    ensures id in Admitting(s, id, at, createdAt).open ==> TxOk(s, Admitting(s, id, at, createdAt).open[id])
  {
    hide Authorised, FenceKeys;
    var tx := s.open[id];
    if tx.resolved.Some? && tx.seen <= |s.admitted| {
      CountMonotone(s.admitted[..tx.seen], tx.resolved.value.company, createdAt - RATE_WINDOW_MS, None,
                    (if at <= createdAt then at else createdAt) - RATE_WINDOW_MS);
    }
  }

  lemma WriteIsOk(s: State, tx: Tx, key: Key, doc: Option<Doc>)
    requires TxOk(s, tx)
    ensures TxOk(s, tx.(writes := tx.writes[key := doc]))
  {
    hide Authorised, Count;
  }

  lemma StepKeepsInv(s: State, action: Action)
    requires Inv(s)
    ensures Inv(Step(s, action))
  {
    hide SnapshotOk, SeenOk, AdmissionOk, ResolvedOk, RateOk, Authorised, Fences, Count, Apply, Stamped;
    var id, t := action.id, Step(s, action);
    if action.Begin? {
      BeginIsOk(s, action.guard);
      LocalKeepsInv(s, t, id);
    } else if id in s.open {
      assert TxOk(s, s.open[id]);
      match action
      case Resolve(_, access, omitted) => {
        UnresolvedHasNoAdmission(s, s.open[id]);
        if s.open[id].resolved.None? { ResolveIsOk(s, id, access, omitted); }
        LocalKeepsInv(s, t, id);
      }
      case Admit(_, at, createdAt) => { AdmitIsOk(s, id, at, createdAt); LocalKeepsInv(s, t, id); }
      case Record(_, key, doc) => { WriteIsOk(s, s.open[id], key, Some(doc)); LocalKeepsInv(s, t, id); }
      case Write(_, key, doc) => { WriteIsOk(s, s.open[id], key, doc); LocalKeepsInv(s, t, id); }
      case Commit(_) => if Committable(s, id) { CommitKeepsInv(s, id); } else { LocalKeepsInv(s, t, id); }
      case Abort(_) => LocalKeepsInv(s, t, id);
    }
  }

  lemma UnresolvedHasNoAdmission(s: State, tx: Tx)
    requires AdmissionOk(s, tx)
    ensures tx.resolved.None? ==> tx.admission.None?
  {
    hide Count;
  }

  lemma {:induction false} RunKeepsInv(docs: Docs, trace: seq<Action>)
    ensures Inv(Run(docs, trace))
  {
    if trace == [] {
    } else {
      hide Step, Inv;
      RunKeepsInv(docs, trace[..|trace| - 1]);
      StepKeepsInv(Run(docs, trace[..|trace| - 1]), trace[|trace| - 1]);
    }
  }

  // ----- The guarantees -----

  /**
    Who may have a file processed: a user of an activated company that is not suspended, for a file
    of that company which is shared with the whole company, uploaded by the user, shared with the
    user, or anybody's if the user is an owner. A derived file needs the same of its source, which
    is not derived itself.
  */
  ghost predicate Entitled(d: Docs, a: Access) {
    && UserKey(a.user) in d && d[UserKey(a.user)].UserDoc? && d[UserKey(a.user)].companyId == a.company
    && CompanyKey(a.company) in d
    && (match d[CompanyKey(a.company)] case CompanyDoc(activated, suspended, _) => activated && !suspended case _ => false)
    && forall file :: file == a.file || SourceOf(d, a.file) == Some(file) ==>
         && FileKey(file) in d
         && match d[FileKey(file)]
            case FileDoc(company, uploader, companyWide, restricted, source, _) =>
              && company == a.company
              && (companyWide || uploader == a.user || a.user in restricted || d[UserKey(a.user)].role == Owner)
              && (file != a.file ==> source.None?)
              && source != Some(file)
            case _ => false
  }

  /** resolve succeeds for exactly those who may, and fences exactly the documents that say so. */
  lemma ResolvesExactly(s: State, id: nat, access: Access)
    requires id in s.open && s.open[id].guard && s.open[id].resolved.None?
    ensures var tx, t := s.open[id], Step(s, Resolve(id, access, {}));
            && (id in t.open <==> Entitled(tx.docs, access))
            && (id in t.open ==> t.open[id].resolved == Some(access) && t.open[id].fenced)
            && (id in t.open ==> forall key :: key in t.open[id].writes <==>
                  || key in tx.writes || key == UserKey(access.user) || key == CompanyKey(access.company)
                  || key == FileKey(access.file)
                  || (FileKey(access.file) in tx.docs && tx.docs[FileKey(access.file)].FileDoc? && key.FileKey? &&
                      tx.docs[FileKey(access.file)].source == Some(key.id)))
  {
    EntitledIsAuthorised(s.open[id].docs, access);
    hide Authorised, Entitled, Fence;
  }

  lemma EntitledIsAuthorised(d: Docs, a: Access)
    ensures Entitled(d, a) <==> Authorised(d, a)
  {
  }

  /** Committing the fences takes nothing from anybody and gives nobody anything. */
  lemma FencesChangeNothing(d: Docs, a: Access, b: Access)
    requires Entitled(d, a)
    ensures Entitled(Apply(d, Fences(d, a)), b) <==> Entitled(d, b)
  {
    EntitledIsAuthorised(d, a);
    var e := Apply(d, Fences(d, a));
    forall key ensures key in e <==> key in d { }
    forall key | key in d ensures e[key] == d[key] || Fence(d, key) == Some(e[key]) { }
    SameButFences(d, e, b);
  }

  lemma SameButFences(d: Docs, e: Docs, b: Access)
    requires e.Keys == d.Keys && forall key :: key in d ==> e[key] == d[key] || Fence(d, key) == Some(e[key])
    ensures Entitled(e, b) <==> Entitled(d, b)
  {
    assert SourceOf(e, b.file) == SourceOf(d, b.file);
    assert FenceKeys(e, b) == FenceKeys(d, b);
  }

  /**
    Whatever else runs beside it, a transaction that has resolved with a session and can commit is
    authorised by the documents as they are at that moment, not only as its snapshot showed them.
  */
  lemma CommittedPublicationIsAuthorised(docs: Docs, trace: seq<Action>, id: nat)
    requires var s := Run(docs, trace); Committable(s, id) && s.open[id].resolved.Some? && s.open[id].fenced
    ensures Entitled(Run(docs, trace).docs, Run(docs, trace).open[id].resolved.value)
  {
    RunKeepsInv(docs, trace);
    hide Run;
    var s := Run(docs, trace);
    assert TxOk(s, s.open[id]);
    SameAuthorisation(s.open[id].docs, s.docs, s.open[id].resolved.value) by {
      hide Count, Authorised;
      forall key | key in FenceKeys(s.open[id].docs, s.open[id].resolved.value)
        ensures Get(s.docs, key) == Get(s.open[id].docs, key) { }
    }
    EntitledIsAuthorised(s.docs, s.open[id].resolved.value);
  }

  lemma SameAuthorisation(a: Docs, b: Docs, access: Access)
    requires Authorised(a, access) && forall key :: key in FenceKeys(a, access) ==> Get(b, key) == Get(a, key)
    ensures Authorised(b, access)
  {
    assert UserKey(access.user) in FenceKeys(a, access);
    assert CompanyKey(access.company) in FenceKeys(a, access);
    assert FileKey(access.file) in FenceKeys(a, access);
    var source := SourceOf(a, access.file);
    assert source.Some? ==> FileKey(source.value) in FenceKeys(a, access);
  }

  /** Once any other transaction commits a write to the user, the company, the file or its source, the publication never commits. */
  predicate Overtaken(s: State, id: nat) {
    id in s.open && exists key :: key in s.open[id].writes && Stamp(s.open[id].stamps, key) != Stamp(s.stamps, key)
  }

  lemma ConflictingCommitOvertakes(docs: Docs, trace: seq<Action>, id: nat, other: nat, key: Key)
    requires var s := Run(docs, trace);
             && id in s.open && s.open[id].resolved.Some? && s.open[id].fenced
             && key in FenceKeys(s.open[id].docs, s.open[id].resolved.value)
             && other != id && Committable(s, other) && key in s.open[other].writes
    ensures Overtaken(Step(Run(docs, trace), Commit(other)), id)
  {
    RunKeepsInv(docs, trace);
    hide Run, Authorised, Count, FenceKeys;
    var s := Run(docs, trace);
    assert TxOk(s, s.open[id]);
    assert Stamp(Committed(s, other).stamps, key) == s.clock + 1;
  }

  lemma OvertakenStays(docs: Docs, trace: seq<Action>, id: nat, action: Action)
    requires Overtaken(Run(docs, trace), id)
    ensures !Committable(Run(docs, trace), id)
    ensures id in Step(Run(docs, trace), action).open ==> Overtaken(Step(Run(docs, trace), action), id)
  {
    hide Run, Step, TxOk;
    RunKeepsInv(docs, trace);
    var s := Run(docs, trace);
    var key :| key in s.open[id].writes && Stamp(s.open[id].stamps, key) != Stamp(s.stamps, key);
    SnapshotBefore(s, id, key);
    KeyStaysOvertaken(s, action, id, key);
  }

  /** A transaction that was overtaken never commits, whatever happens next. */
  lemma {:induction false} NeverCommits(docs: Docs, trace: seq<Action>, more: seq<Action>, id: nat)
    requires Overtaken(Run(docs, trace), id) && forall i :: 0 <= i < |more| && more[i].Begin? ==> more[i].id != id
    ensures var s := Run(docs, trace + more); id in s.open ==> Overtaken(s, id) && !Committable(s, id)
  {
    hide Step, Overtaken, Committable;
    if more == [] {
      assert trace + more == trace;
      OvertakenStays(docs, trace, id, Abort(id));
    } else {
      var last := |more| - 1;
      var before := trace + more[..last];
      NeverCommits(docs, trace, more[..last], id);
      assert (trace + more)[..|trace + more| - 1] == before;
      OnlyBeginOpens(Run(docs, before), more[last], id);
      if id in Run(docs, before).open {
        OvertakenStays(docs, before, id, more[last]);
        if id in Run(docs, trace + more).open { OvertakenStays(docs, trace + more, id, Abort(id)); }
      }
    }
  }

  lemma OnlyBeginOpens(s: State, action: Action, id: nat)
    requires action.Begin? ==> action.id != id
    ensures id in Step(s, action).open ==> id in s.open
  {
    hide Authorised, Count, Fences, Apply, Stamped;
  }

  /** What withdraws a user's right to have the file processed. */
  predicate Withdraws(d: Docs, a: Access, key: Key, doc: Option<Doc>) {
    || (key == CompanyKey(a.company) && doc.Some? && doc.value.CompanyDoc? && doc.value.suspended)
    || (key == UserKey(a.user) && doc.None?)
    || (key == FileKey(a.file) && doc.Some? && doc.value.FileDoc? && !doc.value.companyWide &&
        doc.value.uploader != a.user && a.user !in doc.value.restricted &&
        UserKey(a.user) in d && d[UserKey(a.user)].UserDoc? && d[UserKey(a.user)].role == Member)
  }

  /**
    A commit that suspends the company, deletes the user or takes a plain member off the file ends
    the right at once and stops every publication that is under way for good.
  */
  lemma WithdrawalStops(docs: Docs, trace: seq<Action>, more: seq<Action>, id: nat, other: nat, key: Key)
    requires var s := Run(docs, trace);
             && id in s.open && s.open[id].resolved.Some? && s.open[id].fenced && other != id && Committable(s, other)
             && key in s.open[other].writes
             && Withdraws(Apply(s.docs, s.open[other].writes), s.open[id].resolved.value, key, s.open[other].writes[key])
    requires forall i :: 0 <= i < |more| && more[i].Begin? ==> more[i].id != id
    ensures var after := trace + [Commit(other)];
            && !Entitled(Run(docs, after).docs, Run(docs, trace).open[id].resolved.value)
            && !Committable(Run(docs, after + more), id)
  {
    hide Run, Step;
    var s := Run(docs, trace);
    RunOneMore(docs, trace, Commit(other));
    AfterCommit(s, other);
    ConflictingCommitOvertakes(docs, trace, id, other, key);
    NeverCommits(docs, trace + [Commit(other)], more, id);
    WithdrawnIsNotEntitled(s.docs, s.open[other].writes, s.open[id].resolved.value, key);
  }

  lemma AfterCommit(s: State, other: nat)
    requires Committable(s, other)
    ensures Step(s, Commit(other)).docs == Apply(s.docs, s.open[other].writes)
  {
    hide Apply;
  }

  lemma WithdrawnIsNotEntitled(d: Docs, writes: map<Key, Option<Doc>>, a: Access, key: Key)
    requires key in writes && Withdraws(Apply(d, writes), a, key, writes[key])
    ensures !Entitled(Apply(d, writes), a)
  {
  }

  lemma SnapshotBefore(s: State, id: nat, key: Key)
    requires Inv(s) && id in s.open
    ensures Stamp(s.open[id].stamps, key) <= s.clock
  {
    assert TxOk(s, s.open[id]);
  }

  lemma KeyStaysOvertaken(s: State, action: Action, id: nat, key: Key)
    requires id in s.open && key in s.open[id].writes && Stamp(s.open[id].stamps, key) != Stamp(s.stamps, key)
    requires Stamp(s.open[id].stamps, key) <= s.clock
    ensures var t := Step(s, action);
            id in t.open ==> key in t.open[id].writes && Stamp(t.open[id].stamps, key) != Stamp(t.stamps, key)
  {
    hide Authorised, Count, Fences, Apply;
  }

  /** The positions of a company's jobs that were created in a closed minute, or from `from` on. */
  function Between(admitted: seq<Admitted>, company: nat, from: int, until: Option<int>): set<nat> {
    set i: nat | i < |admitted| && admitted[i].company == company && from <= admitted[i].createdAt &&
                 (until.Some? ==> admitted[i].createdAt <= until.value)
  }

  lemma {:induction false} CountIsSize(admitted: seq<Admitted>, company: nat, from: int, until: Option<int>)
    ensures Count(admitted, company, from, until) == |Between(admitted, company, from, until)|
  {
    if admitted != [] {
      var n := |admitted| - 1;
      CountIsSize(admitted[..n], company, from, until);
      assert Between(admitted, company, from, until) ==
             Between(admitted[..n], company, from, until) + if n in Between(admitted, company, from, until) then {n} else {};
    }
  }

  /** In every interleaving, no 60 seconds hold more than ten admitted jobs of one company. */
  lemma AdmissionRate(docs: Docs, trace: seq<Action>, company: nat, from: int)
    ensures |Between(Run(docs, trace).admitted, company, from, Some(from + 60_000))| <= 10
  {
    hide Run, Count, Stamp, TxOk;
    RunKeepsInv(docs, trace);
    assert InMinute(Run(docs, trace).admitted, company, from) <= RATE_LIMIT;
    CountIsSize(Run(docs, trace).admitted, company, from, Some(from + 60_000));
  }

  /** A resolved transaction is refused exactly when ten jobs of its company were there in its snapshot's last minute. */
  lemma AdmitsExactly(docs: Docs, trace: seq<Action>, id: nat, at: int, createdAt: int)
    requires var s := Run(docs, trace);
             id in s.open && s.open[id].resolved.Some? && s.open[id].fenced && s.open[id].admission.None? && at <= createdAt
    ensures var s, t := Run(docs, trace), Step(Run(docs, trace), Admit(id, at, createdAt));
            var company := s.open[id].resolved.value.company;
            && s.open[id].seen <= |s.admitted|
            && (id in t.open <==> |Between(s.admitted[..s.open[id].seen], company, at - 60_000, None)| < 10)
            && (id in t.open ==> t.open[id] == s.open[id].(admission := Some(Admitted(company, createdAt))))
  {
    hide Run, Count, Stamp, Authorised;
    RunKeepsInv(docs, trace);
    var s := Run(docs, trace);
    assert TxOk(s, s.open[id]);
    CountIsSize(s.admitted[..s.open[id].seen], s.open[id].resolved.value.company, at - 60_000, None);
  }

  /** A commit that meets no conflict installs exactly its writes and its job; one that does installs nothing. */
  lemma CommitsExactly(s: State, id: nat)
    requires id in s.open
    ensures var tx, t := s.open[id], Step(s, Commit(id));
            && t.open == s.open - {id}
            && (Committable(s, id) ==>
                  && (forall key :: Get(t.docs, key) == if key in tx.writes then tx.writes[key] else Get(s.docs, key))
                  && t.admitted == s.admitted + if tx.admission.Some? then [tx.admission.value] else [])
            && (!Committable(s, id) ==> t.docs == s.docs && t.admitted == s.admitted)
  {
    hide Stamped;
  }

  lemma RunOneMore(docs: Docs, trace: seq<Action>, action: Action)
    ensures Run(docs, trace + [action]) == Step(Run(docs, trace), action)
  {
    assert (trace + [action])[..|trace|] == trace;
  }

  /** A guard transaction that leaves out one fence, and a deletion of that document that commits before it does. */
  function Slipping(a: Access, key: Key): seq<Action> {
    [] + [Begin(0, true)] + [Resolve(0, a, {key})] + [Begin(1, false)] + [Write(1, key, None)] + [Commit(1)]
  }

  /**
    Every single fence is needed: when resolve writes all the others and only reads this one, the
    deletion of its document slips between the check and the commit.
  */
  lemma EveryFenceIsNeeded(docs: Docs, a: Access, key: Key)
    requires Authorised(docs, a) && key in FenceKeys(docs, a)
    ensures var s := Run(docs, Slipping(a, key));
            Committable(s, 0) && s.open[0].resolved == Some(a) && s.open[0].writes.Keys == FenceKeys(docs, a) - {key} &&
            !Authorised(s.docs, a)
  {
    hide Run, Step, Authorised;
    var tx := Weaker(docs, a, key);
    var t0: seq<Action> := [];
    var t1 := t0 + [Begin(0, true)];
    var t2 := t1 + [Resolve(0, a, {key})];
    var t3 := t2 + [Begin(1, false)];
    var t4 := t3 + [Write(1, key, None)];
    RunOneMore(docs, t0, Begin(0, true));
    RunOneMore(docs, t1, Resolve(0, a, {key}));
    RunOneMore(docs, t2, Begin(1, false));
    RunOneMore(docs, t3, Write(1, key, None));
    RunOneMore(docs, t4, Commit(1));
    RunStarts(docs);
    SlippingResolves(docs, a, key);
    SlippingCommits(docs, tx, key);
    DeletedIsNotAuthorised(docs, a, key);
  }

  /** The transaction after it has resolved without the fence of `key`. */
  function Weaker(docs: Docs, a: Access, key: Key): Tx {
    Tx(true, docs, map[], 0, Fences(docs, a) - {key}, Some(a), {key} !! FenceKeys(docs, a), None)
  }

  lemma RunStarts(docs: Docs)
    ensures Run(docs, []) == Initial(docs)
  {
  }

  lemma SlippingResolves(docs: Docs, a: Access, key: Key)
    requires Authorised(docs, a)
    ensures Step(Step(Initial(docs), Begin(0, true)), Resolve(0, a, {key})) ==
            Initial(docs).(open := map[0 := Weaker(docs, a, key)])
  {
    hide Authorised, Fences;
    assert map[] + (Fences(docs, a) - {key}) == Fences(docs, a) - {key};
  }

  lemma SlippingCommits(docs: Docs, tx: Tx, key: Key)
    requires key !in tx.writes && tx.stamps == map[]
    ensures var s := Step(Step(Step(Initial(docs).(open := map[0 := tx]), Begin(1, false)), Write(1, key, None)), Commit(1));
            s.docs == docs - {key} && s.open == map[0 := tx] && Committable(s, 0)
  {
    hide Authorised, Fences;
    var other := Tx(false, docs, map[], 0, map[key := None], None, false, None);
    var s := Initial(docs).(open := map[0 := tx, 1 := other]);
    assert Step(Step(Initial(docs).(open := map[0 := tx]), Begin(1, false)), Write(1, key, None)) == s;
    assert Apply(docs, other.writes) == docs - {key};
    assert Committed(s, 1).open == map[0 := tx];
  }

  lemma DeletedIsNotAuthorised(docs: Docs, a: Access, key: Key)
    requires key in FenceKeys(docs, a)
    ensures !Authorised(docs - {key}, a)
  {
    var rest := docs - {key};
    if key != FileKey(a.file) {
      assert SourceOf(rest, a.file) == SourceOf(docs, a.file);
    }
  }
}
