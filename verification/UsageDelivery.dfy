/**
  Delivery of the usage outbox to the provider's meter (submitUsage), by lease holders that can be
  paused, overtaken and crash. `pause` bounds how long after its last lease confirmation a holder
  still acts, `latency` how long after the confirmation its call can reach the provider, which
  keeps an identifier for at least 24 hours and may then forget it at any time.
*/
module UsageDelivery {
  import opened Wrappers

  const HOUR_MS := 3_600_000
  const DAY_MS := 24 * HOUR_MS
  const LEASE_MS := 5 * 60 * 1000
  const RETRY_WINDOW_MS := 23 * HOUR_MS
  const MAX_EVENT_AGE_MS := 35 * DAY_MS

  datatype Delivery = Pending | Submitted | ReconciliationRequired

  /** `timestamp` is in seconds, `first` in milliseconds. */
  datatype Row = Row(quantity: nat, timestamp: int, state: Delivery, first: Option<int>)

  /** Where a holder is in the body of the loop; `first` is what it read when it loaded the row. */
  datatype Stage =
    | Idle
    | Checked(row: nat, first: Option<int>, checked: int)
    | Stamped(row: nat, first: Option<int>, checked: int)
    | Calling(row: nat)
    | Answered(row: nat)

  /** `memory` are the loaded rows still to be handled. */
  datatype Worker = Worker(confirmed: int, memory: map<nat, Option<int>>, stage: Stage)

  datatype Call = Call(token: nat, row: nat, confirmed: int)

  datatype Counted = Counted(row: nat, quantity: nat, at: int)

  datatype Limits = Limits(pause: nat, latency: nat)

  datatype State = State(
    now: int,
    rows: map<nat, Row>,
    lease: Option<nat>,
    leaseUntil: int,
    tokens: nat,
    workers: map<nat, Worker>,
    calls: set<Call>,
    counted: seq<Counted>,
    remembered: map<nat, nat>,
    flagged: bool)

  datatype Action =
    | Tick(until: int)
    | Enqueue(row: nat, quantity: nat, timestamp: int)
    | Acquire(at: int)
    | Renew(token: nat)
    | Release(token: nat)
    | Load(token: nat, pick: set<nat>)
    | Check(token: nat, row: nat)
    | Stamp(token: nat)
    | Confirm(token: nat)
    | Arrive(call: Call)
    | Finish(token: nat)
    | Forget(row: nat)

  // ----- Steps -----

  predicate Acts(s: State, token: nat, pause: nat) {
    token in s.workers && s.now <= s.workers[token].confirmed + pause
  }

  function SetWorker(s: State, token: nat, worker: Worker): State {
    s.(workers := s.workers[token := worker])
  }

  /** A holder that throws takes no further step. */
  function Gone(s: State, token: nat): State {
    s.(workers := s.workers - {token})
  }

  function Acquired(s: State, at: int): State {
    if at > s.now || (s.lease.Some? && s.leaseUntil > at) then s
    else
      s.(lease := Some(s.tokens), leaseUntil := at + LEASE_MS, tokens := s.tokens + 1,
         workers := s.workers[s.tokens := Worker(at, map[], Idle)])
  }

  function Renewed(s: State, token: nat, pause: nat): State {
    if !Acts(s, token, pause) || !s.workers[token].stage.Idle? then s
    else if s.lease != Some(token) then Gone(s, token)
    else SetWorker(s, token, s.workers[token].(confirmed := s.now)).(leaseUntil := s.now + LEASE_MS)
  }

  function Released(s: State, token: nat): State {
    Gone(s, token).(lease := if s.lease == Some(token) then None else s.lease)
  }

  /** The pending rows a holder reads, at most five of them in the program. */
  function Loaded(s: State, token: nat, pick: set<nat>, pause: nat): State {
    if !Acts(s, token, pause) || !s.workers[token].stage.Idle? then s
    else
      SetWorker(s, token, s.workers[token].(memory := map row | row in pick && row in s.rows && s.rows[row].state == Pending ::
                                                        s.rows[row].first))
  }

  predicate TooLate(s: State, row: Row, first: Option<int>) {
    || (first.Some? && s.now - first.value > RETRY_WINDOW_MS)
    || s.now - row.timestamp * 1000 > MAX_EVENT_AGE_MS
  }

  /** An overdue row is given up by an unconditional write, before the lease is looked at and the flag is set. */
  function CheckedRow(s: State, token: nat, row: nat, pause: nat): State {
    if !Acts(s, token, pause) || !s.workers[token].stage.Idle? || row !in s.workers[token].memory || row !in s.rows then s
    else
      var worker := s.workers[token];
      var rest := worker.(memory := worker.memory - {row});
      if TooLate(s, s.rows[row], worker.memory[row]) then
        var given := s.(rows := s.rows[row := s.rows[row].(state := ReconciliationRequired)]);
        if s.lease == Some(token) then SetWorker(given, token, rest).(flagged := true) else Gone(given, token)
      else SetWorker(s, token, rest.(stage := Checked(row, worker.memory[row], s.now)))
  }

  /** The first attempt is stamped unconditionally when the holder read none. */
  function StampedRow(s: State, token: nat, pause: nat): State {
    if !Acts(s, token, pause) || !s.workers[token].stage.Checked? || s.workers[token].stage.row !in s.rows then s
    else
      var stage := s.workers[token].stage;
      var t := SetWorker(s, token, s.workers[token].(stage := Stamped(stage.row, stage.first, stage.checked)));
      if stage.first.Some? then t else t.(rows := s.rows[stage.row := s.rows[stage.row].(first := Some(s.now))])
  }

  function Confirmed(s: State, token: nat, pause: nat): State {
    if !Acts(s, token, pause) || !s.workers[token].stage.Stamped? then s
    else if s.lease != Some(token) then Gone(s, token)
    else
      var row := s.workers[token].stage.row;
      SetWorker(s, token, s.workers[token].(confirmed := s.now, stage := Calling(row)))
        .(leaseUntil := s.now + LEASE_MS, calls := s.calls + {Call(token, row, s.now)})
  }

  function AnsweredBy(workers: map<nat, Worker>, call: Call): map<nat, Worker> {
    if call.token in workers && workers[call.token].stage == Calling(call.row) then
      workers[call.token := workers[call.token].(stage := Answered(call.row))]
    else workers
  }

  /** The provider counts a meter event unless it remembers its identifier. */
  function Arrived(s: State, call: Call, latency: nat): State {
    if call !in s.calls || s.now > call.confirmed + latency || call.row !in s.rows then s
    else
      var t := s.(workers := AnsweredBy(s.workers, call));
      if call.row in s.remembered then t
      else
        t.(counted := s.counted + [Counted(call.row, s.rows[call.row].quantity, s.now)],
           remembered := s.remembered[call.row := |s.counted|])
  }

  /** The delivered row is marked by an unconditional write. */
  function FinishedRow(s: State, token: nat, pause: nat): State {
    if !Acts(s, token, pause) || !s.workers[token].stage.Answered? || s.workers[token].stage.row !in s.rows then s
    else
      var row := s.workers[token].stage.row;
      SetWorker(s, token, s.workers[token].(stage := Idle)).(rows := s.rows[row := s.rows[row].(state := Submitted)])
  }

  function Forgotten(s: State, row: nat): State {
    if row in s.remembered && s.remembered[row] < |s.counted| && s.now >= s.counted[s.remembered[row]].at + DAY_MS then
      s.(remembered := s.remembered - {row})
    else s
  }

  function Step(s: State, action: Action, limits: Limits): State {
    match action
    case Tick(until) => if until >= s.now then s.(now := until) else s
    case Enqueue(row, quantity, timestamp) =>
      if row in s.rows then s else s.(rows := s.rows[row := Row(quantity, timestamp, Pending, None)])
    case Acquire(at) => Acquired(s, at)
    case Renew(token) => Renewed(s, token, limits.pause)
    case Release(token) => Released(s, token)
    case Load(token, pick) => Loaded(s, token, pick, limits.pause)
    case Check(token, row) => CheckedRow(s, token, row, limits.pause)
    case Stamp(token) => StampedRow(s, token, limits.pause)
    case Confirm(token) => Confirmed(s, token, limits.pause)
    case Arrive(call) => Arrived(s, call, limits.latency)
    case Finish(token) => FinishedRow(s, token, limits.pause)
    case Forget(row) => Forgotten(s, row)
  }

  function Initial(now: int): State {
    State(now, map[], None, now, 0, map[], {}, [], map[], false)
  }

  function Run(trace: seq<Action>, now: int, limits: Limits): State {
    if trace == [] then Initial(now) else Step(Run(trace[..|trace| - 1], now, limits), trace[|trace| - 1], limits)
  }

  // ----- The invariant -----

  /** How much later than a confirmed call a stale holder can still stamp its row. */
  function Gain(limits: Limits): nat {
    if limits.pause > LEASE_MS then limits.pause - LEASE_MS else 0
  }

  /** What a holder may have read as the first attempt of a row, compared with the calls made for it. */
  predicate FirstOk(s: State, row: nat, first: Option<int>, token: nat, limits: Limits) {
    && (first.Some? ==> first.value <= s.now && row in s.rows && s.rows[row].first.Some?)
    && forall call :: call in s.calls && call.row == row ==>
         if first.Some? then first.value <= call.confirmed + Gain(limits) else token < call.token
  }

  /** Every holder but the owner of the lease was confirmed more than a lease ago. */
  predicate LeaseOk(s: State, token: nat)
    requires token in s.workers
  {
    && token < s.tokens && s.workers[token].confirmed <= s.now
    && (s.lease == Some(token) ==> s.leaseUntil == s.workers[token].confirmed + LEASE_MS)
    && (s.lease != Some(token) ==> s.workers[token].confirmed + LEASE_MS <= s.now)
    && (s.lease.Some? ==> token <= s.lease.value)
  }

  predicate MemoryOk(s: State, token: nat, limits: Limits)
    requires token in s.workers
  {
    forall row :: row in s.workers[token].memory ==> row in s.rows && FirstOk(s, row, s.workers[token].memory[row], token, limits)
  }

  predicate IsCounted(s: State, row: nat) {
    row in s.rows && exists i :: 0 <= i < |s.counted| && s.counted[i] == Counted(row, s.rows[row].quantity, s.counted[i].at)
  }

  predicate StageOk(s: State, token: nat, limits: Limits)
    requires token in s.workers
  {
    match s.workers[token].stage
    case Idle => true
    case Checked(row, first, checked) =>
      && row in s.rows && row !in s.workers[token].memory
      && FirstOk(s, row, first, token, limits) && s.workers[token].confirmed <= checked <= s.now
      && (first.Some? ==> checked <= first.value + RETRY_WINDOW_MS)
    case Stamped(row, first, checked) =>
      && row in s.rows && row !in s.workers[token].memory
      && FirstOk(s, row, first, token, limits) && s.workers[token].confirmed <= checked <= s.now
      && (first.Some? ==> checked <= first.value + RETRY_WINDOW_MS) && s.rows[row].first.Some?
    case Calling(row) => row in s.rows
    case Answered(row) => IsCounted(s, row)
  }

  predicate CallOk(s: State, call: Call) {
    && call.row in s.rows && s.rows[call.row].first.Some?
    && call.confirmed <= s.now && call.token < s.tokens
    && (s.lease.Some? ==> call.token <= s.lease.value)
    && forall token :: token in s.workers && token < call.token ==> s.workers[token].confirmed + LEASE_MS <= call.confirmed
  }

  predicate RowOk(s: State, row: nat, limits: Limits)
    requires row in s.rows
  {
    && (s.rows[row].first.Some? ==> FirstOk(s, row, s.rows[row].first, 0, limits))
    && (s.rows[row].state == Submitted ==> IsCounted(s, row))
  }

  /** What was counted was called for no later, with the row's quantity, and is remembered for a day. */
  predicate CountOk(s: State, i: nat)
    requires i < |s.counted|
  {
    var c := s.counted[i];
    && c.row in s.rows && c.quantity == s.rows[c.row].quantity && c.at <= s.now
    && (c.row in s.remembered || s.now >= c.at + DAY_MS)
    && exists call :: call in s.calls && call.row == c.row && call.confirmed <= c.at
  }

  predicate RememberedOk(s: State) {
    && (forall row :: row in s.remembered ==>
          && s.remembered[row] < |s.counted| && s.counted[s.remembered[row]].row == row
          && forall i :: s.remembered[row] < i < |s.counted| ==> s.counted[i].row != row)
    && (forall i, j :: 0 <= i <= j < |s.counted| ==> s.counted[i].at <= s.counted[j].at)
  }

  predicate WorkersOk(s: State, limits: Limits) {
    && (s.lease.Some? ==> s.lease.value < s.tokens)
    && (forall token :: token in s.workers ==> LeaseOk(s, token) && MemoryOk(s, token, limits) && StageOk(s, token, limits))
  }

  predicate CallsOk(s: State) {
    forall call :: call in s.calls ==> CallOk(s, call)
  }

  predicate RowsOk(s: State, limits: Limits) {
    forall row :: row in s.rows ==> RowOk(s, row, limits)
  }

  predicate CountsOk(s: State) {
    (forall i :: 0 <= i < |s.counted| ==> CountOk(s, i)) && RememberedOk(s)
  }

  predicate Inv(s: State, limits: Limits) {
    WorkersOk(s, limits) && CallsOk(s) && RowsOk(s, limits) && CountsOk(s)
  }

  // ----- What small changes keep -----

  /** Nothing is uncounted and no row or its stamp is lost; the lease may change only at its owner. */
  predicate Grows(s: State, t: State) {
    && s.now <= t.now && s.tokens <= t.tokens
    && (forall row :: row in s.rows ==>
          && row in t.rows && t.rows[row].quantity == s.rows[row].quantity
          && (s.rows[row].first.Some? ==> t.rows[row].first.Some?))
    && |s.counted| <= |t.counted| && (forall i :: 0 <= i < |s.counted| ==> t.counted[i] == s.counted[i])
  }

  lemma CountedKept(s: State, t: State, row: nat)
    requires Grows(s, t) && IsCounted(s, row)
    ensures IsCounted(t, row)
  {
    var i :| 0 <= i < |s.counted| && s.counted[i] == Counted(row, s.rows[row].quantity, s.counted[i].at);
    assert t.counted[i] == s.counted[i];
  }

  lemma FirstKept(s: State, t: State, row: nat, first: Option<int>, token: nat, limits: Limits)
    requires FirstOk(s, row, first, token, limits) && Grows(s, t) && t.calls == s.calls
    ensures FirstOk(t, row, first, token, limits)
  {
  }

  /** A holder that a step does not touch. */
  lemma WorkerKept(s: State, t: State, token: nat, limits: Limits)
    requires token in s.workers && token in t.workers && t.workers[token] == s.workers[token]
    requires LeaseOk(s, token) && MemoryOk(s, token, limits) && StageOk(s, token, limits)
    requires Grows(s, t) && t.calls == s.calls && (t.lease.Some? ==> token <= t.lease.value)
    requires if t.lease == Some(token) then s.lease == t.lease && t.leaseUntil == s.leaseUntil
             else s.lease == Some(token) ==> s.workers[token].confirmed + LEASE_MS <= t.now
    ensures LeaseOk(t, token) && MemoryOk(t, token, limits) && StageOk(t, token, limits)
  {
    hide FirstOk, IsCounted;
    forall row | row in s.workers[token].memory ensures FirstOk(t, row, s.workers[token].memory[row], token, limits) {
      FirstKept(s, t, row, s.workers[token].memory[row], token, limits);
    }
    match s.workers[token].stage
    case Idle => {}
    case Checked(row, first, _) => FirstKept(s, t, row, first, token, limits);
    case Stamped(row, first, _) => FirstKept(s, t, row, first, token, limits);
    case Calling(_) => {}
    case Answered(row) => CountedKept(s, t, row);
  }

  lemma CallsKept(s: State, t: State)
    requires CallsOk(s) && Grows(s, t) && t.calls == s.calls
    requires forall token :: token in t.workers && (token !in s.workers || t.workers[token].confirmed != s.workers[token].confirmed) ==>
               forall call :: call in s.calls ==> call.token <= token
    requires t.lease.Some? ==> t.lease == s.lease || t.lease.value == s.tokens
    ensures CallsOk(t)
  {
    forall call | call in t.calls ensures CallOk(t, call) { assert CallOk(s, call); }
  }

  lemma CountsKept(s: State, t: State)
    requires CountsOk(s) && Grows(s, t) && s.calls <= t.calls && t.counted == s.counted && t.remembered == s.remembered
    ensures CountsOk(t)
  {
    forall i | 0 <= i < |t.counted| ensures CountOk(t, i) { assert CountOk(s, i); }
  }

  lemma RowsKept(s: State, t: State, limits: Limits)
    requires RowsOk(s, limits) && Grows(s, t) && t.calls == s.calls
    requires forall row :: row in t.rows && !(row in s.rows && t.rows[row] == s.rows[row]) ==> RowOk(t, row, limits)
    ensures RowsOk(t, limits)
  {
    hide FirstOk, IsCounted;
    forall row | row in t.rows ensures RowOk(t, row, limits) {
      if row in s.rows && t.rows[row] == s.rows[row] {
        assert RowOk(s, row, limits);
        if s.rows[row].first.Some? { FirstKept(s, t, row, s.rows[row].first, 0, limits); }
        if s.rows[row].state == Submitted { CountedKept(s, t, row); }
      }
    }
  }

  predicate WorkerOk(s: State, token: nat, limits: Limits)
    requires token in s.workers
  {
    LeaseOk(s, token) && MemoryOk(s, token, limits) && StageOk(s, token, limits)
  }

  lemma WorkerOf(s: State, token: nat, limits: Limits)
    requires WorkersOk(s, limits) && token in s.workers
    ensures WorkerOk(s, token, limits)
  {
  }

  /** A step of one holder that makes no call and does not touch the lease; `gone` if it throws. */
  lemma WorkerStepKeepsInv(s: State, t: State, token: nat, limits: Limits, gone: bool)
    requires Inv(s, limits) && token in s.workers && Grows(s, t)
    requires t == s.(workers := t.workers, rows := t.rows, flagged := t.flagged)
    requires if gone then t.workers == s.workers - {token}
             else token in t.workers && t.workers == s.workers[token := t.workers[token]] && WorkerOk(t, token, limits) &&
                  t.workers[token].confirmed == s.workers[token].confirmed
    requires forall row :: row in t.rows && !(row in s.rows && t.rows[row] == s.rows[row]) ==> RowOk(t, row, limits)
    ensures Inv(t, limits)
  {
    hide LeaseOk, MemoryOk, StageOk, CallsOk, RowsOk, CountsOk, Grows, RowOk;
    forall other | other in t.workers ensures WorkerOk(t, other, limits) {
      if other != token {
        WorkerOf(s, other, limits);
        LeaseHas(s, other, limits);
        WorkerKept(s, t, other, limits);
      }
    }
    CallsKept(s, t);
    RowsKept(s, t, limits);
    CountsKept(s, t);
  }

  lemma LeaseHas(s: State, token: nat, limits: Limits)
    requires WorkersOk(s, limits) && token in s.workers
    ensures s.lease.Some? ==> token <= s.lease.value
    ensures s.workers[token].confirmed <= s.now
    ensures s.lease != Some(token) ==> s.workers[token].confirmed + LEASE_MS <= s.now
    ensures s.lease == Some(token) ==> s.leaseUntil == s.workers[token].confirmed + LEASE_MS
  {
  }

  lemma LoadedIsOk(s: State, token: nat, pick: set<nat>, limits: Limits)
    requires Inv(s, limits) && token in s.workers && Loaded(s, token, pick, limits.pause) != s
    ensures var t := Loaded(s, token, pick, limits.pause); token in t.workers && WorkerOk(t, token, limits)
  {
    hide StageOk, CountOk, RememberedOk, IsCounted;
    var t := Loaded(s, token, pick, limits.pause);
    forall row | row in t.workers[token].memory
      ensures row in t.rows && FirstOk(t, row, t.workers[token].memory[row], token, limits)
    {
      assert RowOk(s, row, limits);
      forall call | call in s.calls && call.row == row ensures s.rows[row].first.Some? { assert CallOk(s, call); }
    }
    LeaseHas(s, token, limits);
    assert StageOk(t, token, limits) by { IdleIsOk(t, token, limits); }
  }

  lemma IdleIsOk(s: State, token: nat, limits: Limits)
    requires token in s.workers && s.workers[token].stage.Idle?
    ensures StageOk(s, token, limits)
  {
  }

  lemma LoadKeepsInv(s: State, token: nat, pick: set<nat>, limits: Limits)
    requires Inv(s, limits)
    ensures Inv(Loaded(s, token, pick, limits.pause), limits)
  {
    hide Inv, WorkerOk, RowOk;
    var t := Loaded(s, token, pick, limits.pause);
    if t != s {
      LoadedIsOk(s, token, pick, limits);
      WorkerStepKeepsInv(s, t, token, limits, false);
    }
  }

  lemma CheckedIsOk(s: State, token: nat, row: nat, limits: Limits)
    requires token in s.workers && WorkerOk(s, token, limits) && CheckedRow(s, token, row, limits.pause) != s
    ensures var t := CheckedRow(s, token, row, limits.pause);
            token in t.workers ==> WorkerOk(t, token, limits) && t.workers[token].confirmed == s.workers[token].confirmed
    ensures row in s.rows && row in CheckedRow(s, token, row, limits.pause).rows
    ensures CheckedRow(s, token, row, limits.pause).rows[row] == s.rows[row] ||
            CheckedRow(s, token, row, limits.pause).rows[row] == s.rows[row].(state := ReconciliationRequired)
  {
    hide IsCounted;
    var t := CheckedRow(s, token, row, limits.pause);
    assert FirstOk(s, row, s.workers[token].memory[row], token, limits);
    if token in t.workers {
      forall other | other in t.workers[token].memory
        ensures other in t.rows && FirstOk(t, other, t.workers[token].memory[other], token, limits)
      {
        assert FirstOk(s, other, s.workers[token].memory[other], token, limits);
      }
    }
  }

  lemma GivenUpRow(s: State, t: State, row: nat, limits: Limits)
    requires row in s.rows && row in t.rows && RowOk(s, row, limits) && t.rows[row] == s.rows[row].(state := ReconciliationRequired)
    requires t.now == s.now && t.calls == s.calls
    ensures RowOk(t, row, limits)
  {
  }

  lemma CheckKeepsInv(s: State, token: nat, row: nat, limits: Limits)
    requires Inv(s, limits)
    ensures Inv(CheckedRow(s, token, row, limits.pause), limits)
  {
    hide WorkerOk, LeaseOk, MemoryOk, StageOk, CallOk, RowOk, CountOk, RememberedOk;
    var t := CheckedRow(s, token, row, limits.pause);
    if t != s {
      WorkerOf(s, token, limits);
      CheckedIsOk(s, token, row, limits);
      if t.rows[row] != s.rows[row] {
        GivenUpRow(s, t, row, limits);
      }
      WorkerStepKeepsInv(s, t, token, limits, token !in t.workers);
    }
  }

  /** A stamp by a stale holder comes at most Gain after any call made for the row. */
  lemma StampIsEarly(s: State, token: nat, limits: Limits)
    requires Inv(s, limits) && Acts(s, token, limits.pause) && s.workers[token].stage.Checked?
    requires s.workers[token].stage.first.None?
    ensures forall call :: call in s.calls && call.row == s.workers[token].stage.row ==> s.now <= call.confirmed + Gain(limits)
  {
    hide RowsOk, CountsOk, LeaseOk, MemoryOk;
    assert StageOk(s, token, limits);
    forall call | call in s.calls && call.row == s.workers[token].stage.row ensures s.now <= call.confirmed + Gain(limits) {
      assert CallOk(s, call);
    }
  }

  lemma StampedIsOk(s: State, token: nat, limits: Limits)
    requires token in s.workers && WorkerOk(s, token, limits) && StampedRow(s, token, limits.pause) != s
    ensures var t := StampedRow(s, token, limits.pause); token in t.workers && WorkerOk(t, token, limits)
  {
    var t := StampedRow(s, token, limits.pause);
    forall other | other in t.workers[token].memory
      ensures other in t.rows && FirstOk(t, other, t.workers[token].memory[other], token, limits)
    {
      assert FirstOk(s, other, s.workers[token].memory[other], token, limits);
    }
  }

  lemma StampedRowIsOk(s: State, token: nat, limits: Limits, row: nat)
    requires Inv(s, limits) && StampedRow(s, token, limits.pause) != s && row in s.rows
    ensures row in StampedRow(s, token, limits.pause).rows && RowOk(StampedRow(s, token, limits.pause), row, limits)
  {
    hide WorkersOk, CallsOk, CountsOk, IsCounted;
    var t := StampedRow(s, token, limits.pause);
    assert RowOk(s, row, limits);
    if s.rows[row].state == Submitted { CountedKept(s, t, row); }
    if s.workers[token].stage.first.None? && s.workers[token].stage.row == row {
      StampIsEarly(s, token, limits);
    }
  }

  lemma StampKeepsInv(s: State, token: nat, limits: Limits)
    requires Inv(s, limits)
    ensures Inv(StampedRow(s, token, limits.pause), limits)
  {
    hide WorkerOk, LeaseOk, MemoryOk, StageOk, CallsOk, RowOk, CountsOk, RowsOk;
    var t := StampedRow(s, token, limits.pause);
    if t != s {
      WorkerOf(s, token, limits);
      StampedIsOk(s, token, limits);
      forall row | row in s.rows ensures row in t.rows && RowOk(t, row, limits) { StampedRowIsOk(s, token, limits, row); }
      WorkerStepKeepsInv(s, t, token, limits, false);
    }
  }

  lemma FinishedIsOk(s: State, token: nat, limits: Limits)
    requires token in s.workers && WorkerOk(s, token, limits) && FinishedRow(s, token, limits.pause) != s
    ensures var t := FinishedRow(s, token, limits.pause); token in t.workers && WorkerOk(t, token, limits)
    ensures IsCounted(s, s.workers[token].stage.row)
  {
    hide IsCounted;
    var t := FinishedRow(s, token, limits.pause);
    forall other | other in t.workers[token].memory
      ensures other in t.rows && FirstOk(t, other, t.workers[token].memory[other], token, limits)
    {
      assert FirstOk(s, other, s.workers[token].memory[other], token, limits);
    }
  }

  lemma FinishedRowIsOk(s: State, token: nat, limits: Limits, row: nat)
    requires RowsOk(s, limits) && FinishedRow(s, token, limits.pause) != s && row in s.rows
    requires IsCounted(s, s.workers[token].stage.row)
    ensures row in FinishedRow(s, token, limits.pause).rows && RowOk(FinishedRow(s, token, limits.pause), row, limits)
  {
    hide IsCounted;
    var t := FinishedRow(s, token, limits.pause);
    assert RowOk(s, row, limits);
    if t.rows[row].state == Submitted { CountedKept(s, t, row); }
  }

  lemma FinishKeepsInv(s: State, token: nat, limits: Limits)
    requires Inv(s, limits)
    ensures Inv(FinishedRow(s, token, limits.pause), limits)
  {
    hide WorkerOk, LeaseOk, MemoryOk, StageOk, CallsOk, RowOk, CountsOk, RowsOk, IsCounted;
    var t := FinishedRow(s, token, limits.pause);
    if t != s {
      WorkerOf(s, token, limits);
      FinishedIsOk(s, token, limits);
      forall row | row in s.rows ensures row in t.rows && RowOk(t, row, limits) { FinishedRowIsOk(s, token, limits, row); }
      WorkerStepKeepsInv(s, t, token, limits, false);
    }
  }

  // ----- The lease -----

  lemma AcquireKeepsInv(s: State, at: int, limits: Limits)
    requires Inv(s, limits)
    ensures Inv(Acquired(s, at), limits)
  {
    hide LeaseOk, MemoryOk, StageOk, CallsOk, RowsOk, CountsOk, Grows;
    var t := Acquired(s, at);
    if t != s {
      assert Grows(s, t) by { GrowsTrivially(s, t); }
      forall token | token in t.workers ensures WorkerOk(t, token, limits) {
        if token == s.tokens {
          NewWorkerIsOk(t, token, limits);
        } else {
          WorkerOf(s, token, limits);
          LeaseHas(s, token, limits);
          TokenBound(s, token, limits);
          WorkerKept(s, t, token, limits);
        }
      }
      CallsBelow(s);
      CallsKept(s, t);
      RowsKept(s, t, limits);
      CountsKept(s, t);
    }
  }

  lemma GrowsTrivially(s: State, t: State)
    requires t.rows == s.rows && t.counted == s.counted && s.now <= t.now && s.tokens <= t.tokens
    ensures Grows(s, t)
  {
  }

  lemma NewWorkerIsOk(s: State, token: nat, limits: Limits)
    requires token in s.workers && s.workers[token].memory == map[] && s.workers[token].stage.Idle?
    requires token < s.tokens && s.workers[token].confirmed <= s.now
    requires s.lease == Some(token) && s.leaseUntil == s.workers[token].confirmed + LEASE_MS
    ensures WorkerOk(s, token, limits)
  {
  }

  lemma TokenBound(s: State, token: nat, limits: Limits)
    requires WorkersOk(s, limits) && token in s.workers
    ensures token < s.tokens
  {
  }

  lemma CallsBelow(s: State)
    requires CallsOk(s)
    ensures forall call :: call in s.calls ==> call.token < s.tokens && (s.lease.Some? ==> call.token <= s.lease.value)
  {
    forall call | call in s.calls ensures call.token < s.tokens && (s.lease.Some? ==> call.token <= s.lease.value) {
      assert CallOk(s, call);
    }
  }

  /** The owner confirms the lease: its own confirmation moves, everybody else's stays. */
  lemma OwnerConfirms(s: State, token: nat, limits: Limits)
    requires Inv(s, limits) && token in s.workers && s.lease == Some(token)
    ensures Inv(SetWorker(s, token, s.workers[token].(confirmed := s.now, stage := Idle)).(leaseUntil := s.now + LEASE_MS), limits)
  {
    hide LeaseOk, MemoryOk, StageOk, CallsOk, RowsOk, CountsOk, Grows;
    var t := SetWorker(s, token, s.workers[token].(confirmed := s.now, stage := Idle)).(leaseUntil := s.now + LEASE_MS);
    GrowsTrivially(s, t);
    forall other | other in t.workers ensures WorkerOk(t, other, limits) {
      WorkerOf(s, other, limits);
      LeaseHas(s, other, limits);
      TokenBound(s, other, limits);
      if other == token {
        ConfirmedIsOk(s, t, token, limits);
      } else {
        WorkerKept(s, t, other, limits);
      }
    }
    CallsBelow(s);
    CallsKept(s, t);
    RowsKept(s, t, limits);
    CountsKept(s, t);
  }

  lemma ConfirmedIsOk(s: State, t: State, token: nat, limits: Limits)
    requires token in s.workers && WorkerOk(s, token, limits) && s.lease == Some(token)
    requires t == SetWorker(s, token, s.workers[token].(confirmed := s.now, stage := Idle)).(leaseUntil := s.now + LEASE_MS)
    ensures WorkerOk(t, token, limits)
  {
    forall row | row in t.workers[token].memory
      ensures row in t.rows && FirstOk(t, row, t.workers[token].memory[row], token, limits)
    {
      assert FirstOk(s, row, s.workers[token].memory[row], token, limits);
    }
  }

  lemma GoneKeepsInv(s: State, token: nat, release: bool, limits: Limits)
    requires Inv(s, limits) && (!release ==> s.lease != Some(token))
    ensures Inv(Gone(s, token).(lease := if s.lease == Some(token) then None else s.lease), limits)
  {
    hide LeaseOk, MemoryOk, StageOk, CallsOk, RowsOk, CountsOk, Grows;
    var t := Gone(s, token).(lease := if s.lease == Some(token) then None else s.lease);
    GrowsTrivially(s, t);
    forall other | other in t.workers ensures WorkerOk(t, other, limits) {
      WorkerOf(s, other, limits);
      LeaseHas(s, other, limits);
      WorkerKept(s, t, other, limits);
    }
    CallsBelow(s);
    CallsKept(s, t);
    RowsKept(s, t, limits);
    CountsKept(s, t);
  }

  // ----- Calls and the provider -----

  function WithCall(s: State, token: nat, row: nat): State
    requires token in s.workers
  {
    SetWorker(s, token, s.workers[token].(stage := Calling(row))).(calls := s.calls + {Call(token, row, s.now)})
  }

  lemma FirstBeforeCall(s: State, token: nat, row: nat, other: nat, seen: nat, first: Option<int>, limits: Limits)
    requires token in s.workers && FirstOk(s, seen, first, other, limits) && (first.None? && seen == row ==> other < token)
    ensures FirstOk(WithCall(s, token, row), seen, first, other, limits)
  {
  }

  lemma WorkerBeforeCall(s: State, token: nat, row: nat, other: nat, limits: Limits)
    requires token in s.workers && other in s.workers && WorkerOk(s, other, limits) && s.lease == Some(token)
    requires other == token ==> row !in s.workers[token].memory && row in s.rows && s.workers[token].stage.Idle?
    ensures WorkerOk(WithCall(s, token, row), other, limits)
  {
    hide FirstOk;
    var t := WithCall(s, token, row);
    forall seen | seen in t.workers[other].memory
      ensures seen in t.rows && FirstOk(t, seen, t.workers[other].memory[seen], other, limits)
    {
      FirstBeforeCall(s, token, row, other, seen, s.workers[other].memory[seen], limits);
    }
    match s.workers[other].stage
    case Checked(seen, first, _) => FirstBeforeCall(s, token, row, other, seen, first, limits);
    case Stamped(seen, first, _) => FirstBeforeCall(s, token, row, other, seen, first, limits);
    case Answered(seen) => if other != token { CountedKept(s, t, seen); }
    case _ => {}
  }

  lemma CallKeepsInv(s: State, token: nat, row: nat, limits: Limits)
    requires Inv(s, limits) && token in s.workers && s.lease == Some(token)
    requires row !in s.workers[token].memory && row in s.rows && s.rows[row].first.Some? && s.workers[token].stage.Idle?
    ensures Inv(WithCall(s, token, row), limits)
  {
    hide LeaseOk, MemoryOk, StageOk, CountsOk, IsCounted, FirstOk;
    var t := WithCall(s, token, row);
    GrowsTrivially(s, t);
    forall other | other in t.workers ensures WorkerOk(t, other, limits) {
      WorkerOf(s, other, limits);
      WorkerBeforeCall(s, token, row, other, limits);
    }
    forall call | call in t.calls ensures CallOk(t, call) {
      if call in s.calls {
        assert CallOk(s, call);
      } else {
        forall other | other in t.workers && other < token ensures t.workers[other].confirmed + LEASE_MS <= s.now {
          LeaseHas(s, other, limits);
        }
        TokenBound(s, token, limits);
      }
    }
    forall seen | seen in t.rows ensures RowOk(t, seen, limits) {
      assert RowOk(s, seen, limits);
      if s.rows[seen].first.Some? { FirstBeforeCall(s, token, row, 0, seen, s.rows[seen].first, limits); }
      if s.rows[seen].state == Submitted { CountedKept(s, t, seen); }
    }
    CountsKept(s, t);
  }

  lemma StampedFacts(s: State, token: nat, limits: Limits)
    requires WorkersOk(s, limits) && token in s.workers && s.workers[token].stage.Stamped?
    ensures var stage := s.workers[token].stage;
            && stage.row in s.rows && stage.row !in s.workers[token].memory && s.rows[stage.row].first.Some?
            && FirstOk(s, stage.row, stage.first, token, limits) && s.workers[token].confirmed <= stage.checked
            && (stage.first.Some? ==> stage.checked <= stage.first.value + RETRY_WINDOW_MS)
  {
    assert StageOk(s, token, limits);
  }

  lemma ConfirmKeepsInv(s: State, token: nat, limits: Limits)
    requires Inv(s, limits)
    ensures Inv(Confirmed(s, token, limits.pause), limits)
  {
    hide WorkersOk, CallsOk, RowsOk, CountsOk, FirstOk;
    var t := Confirmed(s, token, limits.pause);
    if t != s {
      if s.lease == Some(token) {
        StampedFacts(s, token, limits);
        OwnerConfirms(s, token, limits);
        var u := SetWorker(s, token, s.workers[token].(confirmed := s.now, stage := Idle)).(leaseUntil := s.now + LEASE_MS);
        CallKeepsInv(u, token, s.workers[token].stage.row, limits);
        assert t == WithCall(u, token, s.workers[token].stage.row);
      } else {
        GoneKeepsInv(s, token, false, limits);
      }
    }
  }

  lemma RenewKeepsInv(s: State, token: nat, limits: Limits)
    requires Inv(s, limits)
    ensures Inv(Renewed(s, token, limits.pause), limits)
  {
    hide WorkersOk, CallsOk, RowsOk, CountsOk;
    var t := Renewed(s, token, limits.pause);
    if t != s {
      if s.lease == Some(token) {
        OwnerConfirms(s, token, limits);
        assert t == SetWorker(s, token, s.workers[token].(confirmed := s.now, stage := Idle)).(leaseUntil := s.now + LEASE_MS);
      } else {
        GoneKeepsInv(s, token, false, limits);
      }
    }
  }

  /** The worker whose call was answered only moves on. */
  lemma AnsweredIsOk(s: State, call: Call, latency: nat, token: nat, limits: Limits)
    requires token in s.workers && WorkerOk(s, token, limits) && Arrived(s, call, latency) != s
    requires Grows(s, Arrived(s, call, latency)) && IsCounted(Arrived(s, call, latency), call.row)
    ensures token in Arrived(s, call, latency).workers && WorkerOk(Arrived(s, call, latency), token, limits)
  {
    hide FirstOk, IsCounted, Grows;
    var t := Arrived(s, call, latency);
    forall row | row in t.workers[token].memory
      ensures row in t.rows && FirstOk(t, row, t.workers[token].memory[row], token, limits)
    {
      FirstKept(s, t, row, s.workers[token].memory[row], token, limits);
    }
    match s.workers[token].stage
    case Checked(row, first, _) => FirstKept(s, t, row, first, token, limits);
    case Stamped(row, first, _) => FirstKept(s, t, row, first, token, limits);
    case Answered(row) => CountedKept(s, t, row);
    case _ => {}
  }

  lemma ArrivedIsCounted(s: State, call: Call, latency: nat)
    requires CountsOk(s) && Arrived(s, call, latency) != s
    ensures Grows(s, Arrived(s, call, latency)) && IsCounted(Arrived(s, call, latency), call.row)
  {
    var t := Arrived(s, call, latency);
    var i := if call.row in s.remembered then s.remembered[call.row] else |s.counted|;
    if call.row in s.remembered { assert CountOk(s, i); }
    assert t.counted[i].row == call.row;
  }

  lemma ArriveKeepsCounts(s: State, call: Call, latency: nat)
    requires CountsOk(s) && CallsOk(s) && Arrived(s, call, latency) != s
    ensures CountsOk(Arrived(s, call, latency))
  {
    var t := Arrived(s, call, latency);
    assert CallOk(s, call);
    forall i | 0 <= i < |t.counted| ensures CountOk(t, i) {
      if i < |s.counted| { assert CountOk(s, i); } else { assert call in t.calls && call.confirmed <= t.counted[i].at; }
    }
    forall i, j | 0 <= i <= j < |t.counted| ensures t.counted[i].at <= t.counted[j].at {
      if i < |s.counted| { assert CountOk(s, i); }
    }
  }

  lemma SameWorkersCalls(s: State, t: State)
    requires CallsOk(s) && t.calls == s.calls && t.rows == s.rows && t.now >= s.now && t.tokens == s.tokens
    requires t.lease == s.lease
    requires forall token :: token in t.workers ==> token in s.workers && t.workers[token].confirmed == s.workers[token].confirmed
    ensures CallsOk(t)
  {
    forall call | call in t.calls ensures CallOk(t, call) { assert CallOk(s, call); }
  }

  lemma ArriveKeepsInv(s: State, call: Call, limits: Limits)
    requires Inv(s, limits)
    ensures Inv(Arrived(s, call, limits.latency), limits)
  {
    hide LeaseOk, MemoryOk, StageOk, CallsOk, RowsOk, CountsOk, IsCounted, Grows;
    var t := Arrived(s, call, limits.latency);
    if t != s {
      ArrivedIsCounted(s, call, limits.latency);
      forall token | token in t.workers ensures WorkerOk(t, token, limits) {
        WorkerOf(s, token, limits);
        AnsweredIsOk(s, call, limits.latency, token, limits);
      }
      SameWorkersCalls(s, t);
      RowsKept(s, t, limits);
      ArriveKeepsCounts(s, call, limits.latency);
    }
  }

  lemma TickKeepsInv(s: State, until: int, limits: Limits)
    requires Inv(s, limits) && until >= s.now
    ensures Inv(s.(now := until), limits)
  {
    hide LeaseOk, MemoryOk, StageOk, CallsOk, RowsOk, CountsOk, IsCounted, Grows;
    var t := s.(now := until);
    GrowsTrivially(s, t);
    forall token | token in t.workers ensures WorkerOk(t, token, limits) {
      WorkerOf(s, token, limits);
      LeaseHas(s, token, limits);
      WorkerKept(s, t, token, limits);
    }
    SameWorkersCalls(s, t);
    RowsKept(s, t, limits);
    CountsKept(s, t);
  }

  lemma EnqueueKeepsInv(s: State, row: nat, quantity: nat, timestamp: int, limits: Limits)
    requires Inv(s, limits) && row !in s.rows
    ensures Inv(s.(rows := s.rows[row := Row(quantity, timestamp, Pending, None)]), limits)
  {
    hide LeaseOk, MemoryOk, StageOk, CallsOk, RowsOk, CountsOk, IsCounted;
    var t := s.(rows := s.rows[row := Row(quantity, timestamp, Pending, None)]);
    assert Grows(s, t);
    forall token | token in t.workers ensures WorkerOk(t, token, limits) {
      WorkerOf(s, token, limits);
      LeaseHas(s, token, limits);
      WorkerKept(s, t, token, limits);
    }
    CallsKept(s, t);
    RowsKept(s, t, limits);
    CountsKept(s, t);
  }

  lemma ForgetKeepsInv(s: State, row: nat, limits: Limits)
    requires Inv(s, limits)
    ensures Inv(Forgotten(s, row), limits)
  {
    hide LeaseOk, MemoryOk, StageOk, CallsOk, RowsOk, IsCounted, Grows;
    var t := Forgotten(s, row);
    if t != s {
      GrowsTrivially(s, t);
      forall token | token in t.workers ensures WorkerOk(t, token, limits) {
        WorkerOf(s, token, limits);
        LeaseHas(s, token, limits);
        WorkerKept(s, t, token, limits);
      }
      SameWorkersCalls(s, t);
      RowsKept(s, t, limits);
      ForgetKeepsCounts(s, row);
    }
  }

  lemma ForgetKeepsCounts(s: State, row: nat)
    requires CountsOk(s)
    ensures CountsOk(Forgotten(s, row))
  {
    var t := Forgotten(s, row);
    if t != s {
      forall i | 0 <= i < |t.counted| ensures CountOk(t, i) {
        assert CountOk(s, i);
        if s.counted[i].row == row { assert i <= s.remembered[row]; }
      }
    }
  }

  lemma StepKeepsInv(s: State, action: Action, limits: Limits)
    requires Inv(s, limits)
    ensures Inv(Step(s, action, limits), limits)
  {
    hide Inv, Acquired, Renewed, Loaded, CheckedRow, StampedRow, Confirmed, Arrived, FinishedRow, Forgotten;
    match action
    case Tick(until) => if until >= s.now { TickKeepsInv(s, until, limits); }
    case Enqueue(row, quantity, timestamp) => if row !in s.rows { EnqueueKeepsInv(s, row, quantity, timestamp, limits); }
    case Acquire(at) => AcquireKeepsInv(s, at, limits);
    case Renew(token) => RenewKeepsInv(s, token, limits);
    case Release(token) => GoneKeepsInv(s, token, true, limits);
    case Load(token, pick) => LoadKeepsInv(s, token, pick, limits);
    case Check(token, row) => CheckKeepsInv(s, token, row, limits);
    case Stamp(token) => StampKeepsInv(s, token, limits);
    case Confirm(token) => ConfirmKeepsInv(s, token, limits);
    case Arrive(call) => ArriveKeepsInv(s, call, limits);
    case Finish(token) => FinishKeepsInv(s, token, limits);
    case Forget(row) => ForgetKeepsInv(s, row, limits);
  }

  lemma {:induction false} RunKeepsInv(trace: seq<Action>, now: int, limits: Limits)
    ensures Inv(Run(trace, now, limits), limits)
  {
    if trace != [] {
      hide Step, Inv;
      RunKeepsInv(trace[..|trace| - 1], now, limits);
      StepKeepsInv(Run(trace[..|trace| - 1], now, limits), trace[|trace| - 1], limits);
    }
  }
}
