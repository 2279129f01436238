/**
  Uploads and deletions over two stores: objects in S3, metadata rows in MongoDB. Uploads run side
  by side; a commit whose acknowledgement is lost can land after the client has given up.
*/
module FileStore {

  datatype Tx = NotBegun | Open | Committed | Aborted

  /** Where an upload's request handler is. */
  datatype Client = Putting | InTransaction | Uncertain | Compensating | Returned | Failed

  datatype Upload = Upload(tx: Tx, client: Client)

  /** Files, their rows and their objects share one fresh identity per upload; `removing` are files whose deletion has begun. */
  datatype State = State(uploads: map<nat, Upload>, rows: set<nat>, objects: set<nat>, removing: set<nat>)

  datatype Action =
    | Begin(id: nat)
    | Put(id: nat)
    | Commit(id: nat)
    | Abort(id: nat)
    | Acknowledge(id: nat)
    | ReportError(id: nat, unknownCommit: bool)
    | Confirm(id: nat)
    | GiveUp(id: nat)
    | Compensate(id: nat, deleted: bool)
    | BeginRemoval(id: nat)
    | RemoveObject(id: nat)
    | RemoveRow(id: nat)

  function With(s: State, id: nat, upload: Upload): State {
    s.(uploads := s.uploads[id := upload])
  }

  /** An error without the UnknownTransactionCommitResult label means that the transaction aborted. */
  function Reported(s: State, id: nat, unknownCommit: bool): State
    requires id in s.uploads
  {
    var u := s.uploads[id];
    if u.client != InTransaction || (!unknownCommit && u.tx != Aborted) then s
    else With(s, id, u.(client := if unknownCommit then Uncertain else Compensating))
  }

  /** The majority read after an uncertain commit; a missing row proves nothing. */
  function Confirmed(s: State, id: nat): State
    requires id in s.uploads
  {
    var u := s.uploads[id];
    if u.client != Uncertain then s
    else With(s, id, u.(client := if id in s.rows then Returned else Failed))
  }

  function UploadStep(s: State, action: Action): State
    requires action.id in s.uploads
  {
    var id, u := action.id, s.uploads[action.id];
    match action
    case Put(_) =>
      if u.client == Putting then With(s, id, Upload(Open, InTransaction)).(objects := s.objects + {id}) else s
    case Commit(_) => if u.tx == Open then With(s, id, u.(tx := Committed)).(rows := s.rows + {id}) else s
    case Abort(_) => if u.tx == Open then With(s, id, u.(tx := Aborted)) else s
    case Acknowledge(_) =>
      if u.client == InTransaction && u.tx == Committed then With(s, id, u.(client := Returned)) else s
    case ReportError(_, unknownCommit) => Reported(s, id, unknownCommit)
    case Confirm(_) => Confirmed(s, id)
    case GiveUp(_) => if u.client == Uncertain then With(s, id, u.(client := Failed)) else s
    case Compensate(_, deleted) =>
      if u.client == Compensating then
        With(s, id, u.(client := Failed)).(objects := if deleted then s.objects - {id} else s.objects)
      else s
    case _ => s
  }

  function Step(s: State, action: Action): State {
    match action
    case Begin(id) => if id in s.uploads then s else With(s, id, Upload(NotBegun, Putting))
    case BeginRemoval(id) => if id in s.rows then s.(removing := s.removing + {id}) else s
    case RemoveObject(id) => if id in s.removing then s.(objects := s.objects - {id}) else s
    case RemoveRow(id) => if id in s.removing then s.(rows := s.rows - {id}) else s
    case _ => if action.id in s.uploads then UploadStep(s, action) else s
  }

  function Run(trace: seq<Action>): State {
    if trace == [] then State(map[], {}, {}, {}) else Step(Run(trace[..|trace| - 1]), trace[|trace| - 1])
  }

  // ----- The invariant -----

  predicate UploadOk(s: State, id: nat)
    requires id in s.uploads
  {
    var u := s.uploads[id];
    && (u.client == Putting <==> u.tx == NotBegun)
    && (u.tx == NotBegun || u.tx == Open || u.tx == Aborted ==> id !in s.rows && id !in s.removing)
    && (u.tx == Committed ==> id in s.rows || id in s.removing)
    && (u.client == Compensating ==> u.tx == Aborted)
    && (u.client == Returned ==> u.tx == Committed)
    && (u.tx == Open || (u.tx == Committed && id !in s.removing) ==> id in s.objects)
  }

  predicate Inv(s: State) {
    && (forall id :: id in s.uploads ==> UploadOk(s, id))
    && s.rows + s.removing + s.objects <= s.uploads.Keys
  }

  lemma StepKeepsInv(s: State, action: Action)
    requires Inv(s)
    ensures Inv(Step(s, action))
  {
    var t := Step(s, action);
    if action.id in s.uploads { assert UploadOk(s, action.id); }
    forall id | id in t.uploads ensures UploadOk(t, id) {
      if id in s.uploads { assert UploadOk(s, id); }
    }
  }

  lemma {:induction false} RunKeepsInv(trace: seq<Action>)
    ensures Inv(Run(trace))
  {
    if trace != [] {
      hide Step, Inv;
      RunKeepsInv(trace[..|trace| - 1]);
      StepKeepsInv(Run(trace[..|trace| - 1]), trace[|trace| - 1]);
    }
  }

  /** A committed row that nobody is deleting always has its object. */
  lemma RowsHaveObjects(trace: seq<Action>, id: nat)
    requires id in Run(trace).rows && id !in Run(trace).removing
    ensures id in Run(trace).objects
  {
    hide Run;
    RunKeepsInv(trace);
    assert id in Run(trace).uploads && UploadOk(Run(trace), id);
  }

  /** A successful answer means that the file was committed; it and its object stay until it is deleted. */
  lemma SuccessIsDurable(trace: seq<Action>, id: nat)
    requires var s := Run(trace); id in s.uploads && s.uploads[id].client == Returned && id !in s.removing
    ensures id in Run(trace).rows && id in Run(trace).objects
  {
    hide Run;
    RunKeepsInv(trace);
    assert UploadOk(Run(trace), id);
  }

  predicate SurelyAborted(s: State, id: nat) {
    id in s.uploads && s.uploads[id].tx == Aborted && s.uploads[id].client != Putting && id !in s.rows
  }

  lemma AbortedStays(s: State, action: Action, id: nat)
    requires SurelyAborted(s, id)
    ensures SurelyAborted(Step(s, action), id)
  {
  }

  /** Compensation deletes an object only if its row does not exist and never will. */
  lemma {:induction false} CompensatedNeverAppears(trace: seq<Action>, more: seq<Action>, id: nat)
    requires var s := Run(trace); id in s.uploads && s.uploads[id].client == Compensating
    ensures SurelyAborted(Run(trace + more), id)
  {
    hide Step;
    if more == [] {
      RunKeepsInv(trace);
      hide Run;
      assert UploadOk(Run(trace), id);
      assert trace + more == trace;
    } else {
      var last := |more| - 1;
      CompensatedNeverAppears(trace, more[..last], id);
      assert (trace + more)[..|trace + more| - 1] == trace + more[..last];
      AbortedStays(Run(trace + more[..last]), more[last], id);
    }
  }

  /**
    A missing row proves nothing: after the client has looked for it in vain the commit can still
    land. The object it kept is then the file's; had it been deleted, the row would have lost it.
  */
  lemma MissingRowProvesNothing(s: State, id: nat)
    requires Inv(s) && id in s.uploads && s.uploads[id].tx == Open && s.uploads[id].client == Uncertain
    ensures var t := Step(s, Confirm(id));
            && t.uploads[id].client == Failed && id !in t.rows
            && id in Step(t, Commit(id)).rows && id in Step(t, Commit(id)).objects
            && id !in Step(t, Abort(id)).rows
            && var careless := t.(objects := t.objects - {id});
               id in Step(careless, Commit(id)).rows && id !in Step(careless, Commit(id)).objects
  {
    assert UploadOk(s, id);
  }

  // ----- The handlers -----

  ghost predicate Reachable(s: State) {
    exists trace :: Run(trace) == s
  }

  lemma StepReachable(s: State, action: Action)
    requires Reachable(s)
    ensures Reachable(Step(s, action))
  {
    hide Step;
    var trace :| Run(trace) == s;
    assert (trace + [action])[..|trace|] == trace;
    assert Run(trace + [action]) == Step(s, action);
  }

  lemma ReachableInv(s: State)
    requires Reachable(s)
    ensures Inv(s)
  {
    hide Run, Inv;
    var trace :| Run(trace) == s;
    RunKeepsInv(trace);
  }

  /** How the metadata transaction of one upload ends, and what its client learns. */
  datatype Ending = Acknowledged | CleanAbort | LostCommit(readable: bool) | LostAbort(readable: bool)

  datatype Stop = BeforeObject | BeforeRow | Never

  datatype Deletion = NotFound | NotPermitted | Stopped | Deleted

  predicate Commits(ending: Ending) {
    ending.Acknowledged? || ending.LostCommit?
  }

  /** The metadata transaction, as a part of a run. */
  lemma Transact(s: State, id: nat, ending: Ending) returns (t: State)
    requires Reachable(s) && id !in s.uploads
    ensures Reachable(t) && id in t.uploads && t.objects == s.objects + {id} && t.removing == s.removing
    ensures t.rows == s.rows + (if Commits(ending) then {id} else {})
    ensures t.uploads[id] == Upload(if Commits(ending) then Committed else Aborted,
                                    match ending case Acknowledged => Returned case CleanAbort => Compensating case _ => Uncertain)
  {
    hide Reachable;
    var a := Step(s, Begin(id));
    StepReachable(s, Begin(id));
    var b := Step(a, Put(id));
    StepReachable(a, Put(id));
    var third := if Commits(ending) then Commit(id) else Abort(id);
    var c := Step(b, third);
    StepReachable(b, third);
    var fourth := if ending.Acknowledged? then Acknowledge(id) else ReportError(id, !ending.CleanAbort?);
    t := Step(c, fourth);
    StepReachable(c, fourth);
  }

  class Files {
    var rows: set<nat>
    var objects: set<nat>
    var tombstones: set<nat>

    constructor ()
      ensures In(State(map[], {}, {}, {})) && Reachable(State(map[], {}, {}, {})) && tombstones == {}
    {
      rows, objects, tombstones := {}, {}, {};
      new;
      assert Run([]) == State(map[], {}, {}, {});
    }

    ghost predicate In(s: State)
      reads this
    {
      rows == s.rows && objects == s.objects
    }

    /**
      FilesService.upload after validation and admission, as a run of the protocol; `cleaned` says
      whether the compensating delete succeeds. It succeeds exactly when it knows of the commit, and
      it deletes the object only after a clean abort.
    */
    method UploadFile(ghost s: State, id: nat, ending: Ending, cleaned: bool) returns (ok: bool, ghost t: State)
      requires Reachable(s) && In(s) && id !in s.uploads
      modifies this`rows, this`objects
      ensures Reachable(t) && In(t) && id in t.uploads && t.removing == s.removing
      ensures rows == old(rows) + (if Commits(ending) then {id} else {})
      ensures objects == old(objects) + {id} - (if ending.CleanAbort? && cleaned then {id} else {})
      ensures ok <==> ending.Acknowledged? || (ending.LostCommit? && ending.readable)
      ensures t.uploads[id].client == if ok then Returned else Failed
    {
      ReachableInv(s);
      t := Transact(s, id, ending);
      hide Reachable;
      objects := objects + {id};
      if ending.Acknowledged? || ending.LostCommit? {
        rows := rows + {id};
      }
      if ending.Acknowledged? { return true, t; }
      if !ending.CleanAbort? {
        if !ending.readable {
          StepReachable(t, GiveUp(id));
          return false, Step(t, GiveUp(id));
        }
        StepReachable(t, Confirm(id));
        return id in rows, Step(t, Confirm(id));
      }
      if cleaned {
        objects := objects - {id};
      }
      StepReachable(t, Compensate(id, cleaned));
      return false, Step(t, Compensate(id, cleaned));
    }

    /**
      FilesService.delete, as a run; `visible` is the access filter and the lineage check. A derived
      file leaves its tombstone before anything is deleted, and the handler can stop after each write.
    */
    method DeleteFile(ghost s: State, id: nat, derived: bool, visible: bool, owner: bool, uploader: bool, stops: Stop)
      returns (r: Deletion, ghost t: State)
      requires Reachable(s) && In(s)
      modifies this
      ensures Reachable(t) && In(t)
      ensures r == if id !in old(rows) || !visible then NotFound else if !owner && !uploader then NotPermitted
                   else if stops.Never? then Deleted else Stopped
      ensures r.NotFound? || r.NotPermitted? ==> t == s && tombstones == old(tombstones)
      ensures r.Stopped? || r.Deleted? ==>
                && tombstones == old(tombstones) + (if derived then {id} else {})
                && t.removing == s.removing + {id} && t.uploads == s.uploads
                && t.objects == (if stops.BeforeObject? then s.objects else s.objects - {id})
                && t.rows == (if r.Deleted? then s.rows - {id} else s.rows)
    {
      hide Reachable;
      if id !in rows || !visible { return NotFound, s; }
      if !owner && !uploader { return NotPermitted, s; }
      StepReachable(s, BeginRemoval(id));
      t := Step(s, BeginRemoval(id));
      if derived {
        tombstones := tombstones + {id};
      }
      if stops.BeforeObject? { return Stopped, t; }
      StepReachable(t, RemoveObject(id));
      t := Step(t, RemoveObject(id));
      objects := objects - {id};
      if stops.BeforeRow? { return Stopped, t; }
      StepReachable(t, RemoveRow(id));
      t := Step(t, RemoveRow(id));
      rows := rows - {id};
      return Deleted, t;
    }
  }
}
