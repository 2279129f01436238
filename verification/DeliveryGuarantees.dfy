/**
  What usage delivery guarantees over all runs, and exactly under which bounds on pauses and latency.
*/
module DeliveryGuarantees {
  import opened Wrappers
  import opened UsageDelivery

  ghost predicate Reachable(s: State, limits: Limits) {
    exists trace, now :: Run(trace, now, limits) == s
  }

  lemma InitialReachable(now: int, limits: Limits)
    ensures Reachable(Initial(now), limits)
  {
    assert Run([], now, limits) == Initial(now);
  }

  lemma StepReachable(s: State, action: Action, limits: Limits)
    requires Reachable(s, limits)
    ensures Reachable(Step(s, action, limits), limits)
  {
    hide Step;
    var trace, now :| Run(trace, now, limits) == s;
    assert (trace + [action])[..|trace|] == trace;
    assert Run(trace + [action], now, limits) == Step(s, action, limits);
  }

  lemma ReachableInv(s: State, limits: Limits)
    requires Reachable(s, limits)
    ensures Inv(s, limits)
  {
    hide Run, Inv;
    var trace, now :| Run(trace, now, limits) == s;
    RunKeepsInv(trace, now, limits);
  }

  // ----- Counted at most once -----

  predicate AtMostOnce(s: State) {
    forall i, j :: 0 <= i < j < |s.counted| ==> s.counted[i].row != s.counted[j].row
  }

  /** The bound on pauses and latency. */
  predicate Prompt(limits: Limits) {
    Gain(limits) + limits.pause + limits.latency < HOUR_MS
  }

  /** Any call for a row reaches the provider less than a day after any other was confirmed. */
  predicate CallsClose(s: State, limits: Limits) {
    forall x, y :: x in s.calls && y in s.calls && x.row == y.row ==> y.confirmed + limits.latency < x.confirmed + DAY_MS
  }

  lemma ConfirmKeepsClose(s: State, token: nat, limits: Limits)
    requires Inv(s, limits) && Prompt(limits) && CallsClose(s, limits)
    ensures CallsClose(Confirmed(s, token, limits.pause), limits)
  {
    hide RowsOk, CountsOk, LeaseOk, MemoryOk, StageOk;
    var t := Confirmed(s, token, limits.pause);
    if t.calls != s.calls {
      StampedFacts(s, token, limits);
      forall x | x in s.calls && x.row == s.workers[token].stage.row
        ensures s.now + limits.latency < x.confirmed + DAY_MS && x.confirmed + limits.latency < s.now + DAY_MS
      {
        assert CallOk(s, x);
      }
    }
  }

  lemma ArriveKeepsOnce(s: State, call: Call, limits: Limits)
    requires Inv(s, limits) && CallsClose(s, limits) && AtMostOnce(s)
    ensures AtMostOnce(Arrived(s, call, limits.latency))
  {
    hide WorkersOk, CallsOk, RowsOk;
    var t := Arrived(s, call, limits.latency);
    if t.counted != s.counted {
      forall i | 0 <= i < |s.counted| ensures s.counted[i].row != call.row {
        assert CountOk(s, i);
      }
    }
  }

  lemma StepKeepsOnce(s: State, action: Action, limits: Limits)
    requires Inv(s, limits) && Prompt(limits) && CallsClose(s, limits) && AtMostOnce(s)
    ensures CallsClose(Step(s, action, limits), limits) && AtMostOnce(Step(s, action, limits))
  {
    if action.Confirm? {
      hide Inv, CallsClose;
      ConfirmKeepsClose(s, action.token, limits);
    } else if action.Arrive? {
      hide Inv, AtMostOnce;
      ArriveKeepsOnce(s, action.call, limits);
    } else {
      hide Inv, TooLate;
    }
  }

  lemma {:induction false} RunOnce(trace: seq<Action>, now: int, limits: Limits)
    requires Prompt(limits)
    ensures CallsClose(Run(trace, now, limits), limits) && AtMostOnce(Run(trace, now, limits))
  {
    if trace != [] {
      hide Step, Inv, CallsClose, AtMostOnce;
      var before := Run(trace[..|trace| - 1], now, limits);
      RunOnce(trace[..|trace| - 1], now, limits);
      RunKeepsInv(trace[..|trace| - 1], now, limits);
      StepKeepsOnce(before, trace[|trace| - 1], limits);
    }
  }

  // ----- Runs of one row that break the bounds -----

  /** The state after the next holder has acquired the lease and loaded the one row. */
  function TakenOver(s: State): State
    requires 0 in s.rows
  {
    s.(lease := Some(s.tokens), leaseUntil := s.now + LEASE_MS, tokens := s.tokens + 1,
       workers := s.workers[s.tokens := Worker(s.now, map[0 := s.rows[0].first], Idle)])
  }

  lemma TakeOver(s: State, limits: Limits)
    requires Reachable(s, limits) && 0 in s.rows && s.rows[0].state == Pending && (s.lease.Some? ==> s.leaseUntil <= s.now)
    ensures Reachable(TakenOver(s), limits)
  {
    var t := Step(s, Acquire(s.now), limits);
    StepReachable(s, Acquire(s.now), limits);
    StepReachable(t, Load(s.tokens, {0}), limits);
    assert t.workers[s.tokens] == Worker(s.now, map[], Idle);
    var u := Step(t, Load(s.tokens, {0}), limits);
    assert u.workers[s.tokens].memory == map[0 := s.rows[0].first];
    assert u.workers == TakenOver(s).workers;
  }

  /** The state after holder `token` has checked the row in time. */
  function InTime(s: State, token: nat): State
    requires token in s.workers && 0 in s.workers[token].memory
  {
    s.(workers := s.workers[token := s.workers[token].(memory := s.workers[token].memory - {0},
                                                       stage := Checked(0, s.workers[token].memory[0], s.now))])
  }

  lemma CheckInTime(s: State, token: nat, limits: Limits)
    requires Reachable(s, limits) && Acts(s, token, limits.pause) && s.workers[token].stage.Idle?
    requires 0 in s.workers[token].memory && 0 in s.rows && !TooLate(s, s.rows[0], s.workers[token].memory[0])
    ensures Reachable(InTime(s, token), limits)
  {
    StepReachable(s, Check(token, 0), limits);
  }

  /** The state after the owner has stamped the row, if need be, and made its call `pause` later. */
  function Called(s: State, token: nat, first: int, pause: nat): State
    requires token in s.workers && 0 in s.rows
  {
    s.(now := s.now + pause, rows := s.rows[0 := s.rows[0].(first := Some(first))], leaseUntil := s.now + pause + LEASE_MS,
       workers := s.workers[token := s.workers[token].(confirmed := s.now + pause, stage := Calling(0))],
       calls := s.calls + {Call(token, 0, s.now + pause)})
  }

  lemma MakeCall(s: State, token: nat, first: int, pause: nat, limits: Limits)
    requires Reachable(s, limits) && token in s.workers && s.workers[token].confirmed == s.now && s.lease == Some(token)
    requires s.workers[token].stage.Checked? && s.workers[token].stage.row == 0 && 0 in s.rows && pause <= limits.pause
    requires if s.workers[token].stage.first.Some? then s.rows[0].first == Some(first) else first == s.now
    ensures Reachable(Called(s, token, first, pause), limits)
  {
    var t := Step(s, Stamp(token), limits);
    StepReachable(s, Stamp(token), limits);
    assert t.rows == s.rows[0 := s.rows[0].(first := Some(first))];
    var u := Step(t, Tick(s.now + pause), limits);
    StepReachable(t, Tick(s.now + pause), limits);
    StepReachable(u, Confirm(token), limits);
    assert Step(u, Confirm(token), limits).workers == Called(s, token, first, pause).workers;
  }

  /** The call reaches the provider `latency` later, and is counted if its identifier is not remembered. */
  lemma Count(s: State, call: Call, latency: nat, limits: Limits) returns (t: State)
    requires Reachable(s, limits) && call in s.calls && call.confirmed == s.now && call.row == 0 && 0 in s.rows
    requires latency <= limits.latency
    requires 0 in s.remembered ==> s.remembered[0] < |s.counted| && s.now + latency >= s.counted[s.remembered[0]].at + DAY_MS
    ensures Reachable(t, limits) && t.counted == s.counted + [Counted(0, s.rows[0].quantity, s.now + latency)]
    ensures 0 in t.remembered && t.remembered[0] == |s.counted|
    ensures t == s.(now := s.now + latency, counted := t.counted, remembered := t.remembered, workers := AnsweredBy(s.workers, call))
  {
    var u := Step(s, Tick(s.now + latency), limits);
    StepReachable(s, Tick(s.now + latency), limits);
    var v := Step(u, Forget(0), limits);
    StepReachable(u, Forget(0), limits);
    assert 0 !in v.remembered;
    t := Step(v, Arrive(call), limits);
    StepReachable(v, Arrive(call), limits);
  }

  lemma Wait(s: State, until: int, limits: Limits)
    requires Reachable(s, limits) && until >= s.now
    ensures Reachable(s.(now := until), limits)
  {
    StepReachable(s, Tick(until), limits);
  }

  /** The row is enqueued, and the first holder has loaded and checked it. */
  lemma Open(now: int, limits: Limits) returns (t: State)
    requires now <= MAX_EVENT_AGE_MS
    ensures Reachable(t, limits) && t.now == now && t.rows == map[0 := Row(1, 0, Pending, None)]
    ensures t.lease == Some(0) && t.leaseUntil == now + LEASE_MS && t.tokens == 1
    ensures t.workers == map[0 := Worker(now, map[], Checked(0, None, now))]
    ensures t.calls == {} && t.counted == [] && t.remembered == map[]
  {
    InitialReachable(now, limits);
    StepReachable(Initial(now), Enqueue(0, 1, 0), limits);
    var s := Step(Initial(now), Enqueue(0, 1, 0), limits);
    TakeOver(s, limits);
    CheckInTime(TakenOver(s), 0, limits);
    t := InTime(TakenOver(s), 0);
    assert t.workers[0].memory == map[];
  }

  /** One row, counted once at `at`, whose stamp says `first`: a slow holder has it counted again. */
  lemma CountAgain(s: State, first: int, at: int, pause: nat, latency: nat, limits: Limits) returns (t: State)
    requires Reachable(s, limits) && 0 in s.rows && s.rows[0] == Row(1, 0, Pending, Some(first))
    requires s.counted == [Counted(0, 1, at)] && 0 in s.remembered && s.remembered[0] == 0
    requires s.now <= first + RETRY_WINDOW_MS && s.leaseUntil <= first + RETRY_WINDOW_MS
    requires pause <= limits.pause && latency <= limits.latency && 0 <= first <= DAY_MS
    requires first + RETRY_WINDOW_MS + pause + latency >= at + DAY_MS
    ensures Reachable(t, limits) && !AtMostOnce(t)
  {
    hide TakenOver, InTime, Called, Reachable;
    var token, late := s.tokens, first + RETRY_WINDOW_MS;
    Wait(s, late, limits);
    var s1 := s.(now := late);
    TakeOver(s1, limits);
    TakenOverIs(s1);
    var s2 := TakenOver(s1);
    CheckInTime(s2, token, limits);
    InTimeIs(s2, token);
    var s3 := InTime(s2, token);
    MakeCall(s3, token, first, pause, limits);
    CalledIs(s3, token, first, pause);
    t := Count(Called(s3, token, first, pause), Call(token, 0, late + pause), latency, limits);
    assert t.counted[0].row == t.counted[1].row;
  }

  lemma TakenOverIs(s: State)
    requires 0 in s.rows
    ensures var t := TakenOver(s);
            && t.now == s.now && t.rows == s.rows && t.counted == s.counted && t.remembered == s.remembered
            && t.lease == Some(s.tokens) && s.tokens in t.workers
            && t.workers[s.tokens] == Worker(s.now, map[0 := s.rows[0].first], Idle)
  {
  }

  lemma InTimeIs(s: State, token: nat)
    requires token in s.workers && 0 in s.workers[token].memory
    ensures var t := InTime(s, token);
            && t.now == s.now && t.rows == s.rows && t.counted == s.counted && t.remembered == s.remembered
            && t.lease == s.lease && token in t.workers && t.workers[token].confirmed == s.workers[token].confirmed
            && t.workers[token].stage == Checked(0, s.workers[token].memory[0], s.now)
  {
  }

  lemma CalledIs(s: State, token: nat, first: int, pause: nat)
    requires token in s.workers && 0 in s.rows
    ensures var t := Called(s, token, first, pause);
            && t.now == s.now + pause && t.counted == s.counted && t.remembered == s.remembered && 0 in t.rows
            && t.rows[0] == s.rows[0].(first := Some(first)) && Call(token, 0, s.now + pause) in t.calls
  {
  }

  /** Without a stale stamp: pause and latency alone make up the hour between 23 and 24. */
  lemma SlowRetryCountsTwice(pause: nat, latency: nat, limits: Limits) returns (t: State)
    requires pause <= limits.pause && latency <= limits.latency && pause + latency >= HOUR_MS
    ensures Reachable(t, limits) && !AtMostOnce(t)
  {
    hide Reachable;
    var s := Open(0, limits);
    MakeCall(s, 0, 0, 0, limits);
    var u := Count(Called(s, 0, 0, 0), Call(0, 0, 0), 0, limits);
    t := CountAgain(u, 0, 0, pause, latency, limits);
  }

  /** The first holder, overtaken after it checked the row, stamps it long after the second had it counted. */
  lemma StaleStampCountsTwice(pause: nat, latency: nat, limits: Limits) returns (t: State)
    requires LEASE_MS <= pause <= limits.pause && latency <= limits.latency && pause <= 2 * HOUR_MS
    requires pause - LEASE_MS + pause + latency >= HOUR_MS
    ensures Reachable(t, limits) && !AtMostOnce(t)
  {
    hide Reachable;
    var s := Open(0, limits);
    Wait(s, LEASE_MS, limits);
    var s1 := s.(now := LEASE_MS);
    TakeOver(s1, limits);
    CheckInTime(TakenOver(s1), 1, limits);
    var s2 := InTime(TakenOver(s1), 1);
    MakeCall(s2, 1, LEASE_MS, 0, limits);
    var s3 := Count(Called(s2, 1, LEASE_MS, 0), Call(1, 0, LEASE_MS), 0, limits);
    Wait(s3, pause, limits);
    var s4 := s3.(now := pause);
    assert s4.workers[0] == Worker(0, map[], Checked(0, None, 0));
    StepReachable(s4, Stamp(0), limits);
    var s5 := Step(s4, Stamp(0), limits);
    assert s5.rows[0] == Row(1, 0, Pending, Some(pause));
    t := CountAgain(s5, pause, LEASE_MS, pause, latency, limits);
  }

  /** Metered usage is counted at most once in every run, exactly when pauses and latency are this short. */
  lemma CountedAtMostOnce(limits: Limits)
    ensures (forall s :: Reachable(s, limits) ==> AtMostOnce(s)) <==> Prompt(limits)
  {
    hide Run, AtMostOnce, Inv, CallsClose;
    if Prompt(limits) {
      forall s | Reachable(s, limits) ensures AtMostOnce(s) {
        var trace, now :| Run(trace, now, limits) == s;
        RunOnce(trace, now, limits);
      }
    } else {
      var pause := if limits.pause <= 2 * HOUR_MS then limits.pause else 2 * HOUR_MS;
      var t: State;
      if pause <= LEASE_MS {
        t := SlowRetryCountsTwice(pause, limits.latency, limits);
      } else {
        t := StaleStampCountsTwice(pause, limits.latency, limits);
      }
    }
  }

  function Total(counted: seq<Counted>, row: nat): nat {
    if counted == [] then 0
    else
      var last := counted[|counted| - 1];
      Total(counted[..|counted| - 1], row) + if last.row == row then last.quantity else 0
  }

  lemma {:induction false} TotalOfNone(counted: seq<Counted>, row: nat)
    requires forall i :: 0 <= i < |counted| ==> counted[i].row != row
    ensures Total(counted, row) == 0
  {
    if counted != [] {
      TotalOfNone(counted[..|counted| - 1], row);
    }
  }

  lemma {:induction false} TotalOfOne(counted: seq<Counted>, i: nat)
    requires i < |counted| && forall j :: 0 <= j < |counted| && j != i ==> counted[j].row != counted[i].row
    ensures Total(counted, counted[i].row) == counted[i].quantity
  {
    var rest := counted[..|counted| - 1];
    if i == |counted| - 1 {
      TotalOfNone(rest, counted[i].row);
    } else {
      TotalOfOne(rest, i);
    }
  }

  /** A submitted row has been counted, with its quantity, however long pauses and calls take. */
  lemma SubmittedIsCounted(s: State, row: nat, limits: Limits)
    requires Reachable(s, limits) && row in s.rows && s.rows[row].state == Submitted
    ensures exists i :: 0 <= i < |s.counted| && s.counted[i].row == row && s.counted[i].quantity == s.rows[row].quantity
  {
    ReachableInv(s, limits);
    assert RowOk(s, row, limits);
  }

  /** With prompt holders, the provider's total for a submitted row is its quantity, and for any row at most that. */
  lemma SubmittedExactly(s: State, row: nat, limits: Limits)
    requires Reachable(s, limits) && Prompt(limits) && row in s.rows
    ensures Total(s.counted, row) == s.rows[row].quantity || Total(s.counted, row) == 0
    ensures s.rows[row].state == Submitted ==> Total(s.counted, row) == s.rows[row].quantity
  {
    CountedAtMostOnce(limits);
    ReachableInv(s, limits);
    hide Reachable, WorkersOk, CallsOk;
    if exists i :: 0 <= i < |s.counted| && s.counted[i].row == row {
      var i :| 0 <= i < |s.counted| && s.counted[i].row == row;
      assert CountOk(s, i);
      TotalOfOne(s.counted, i);
    } else {
      TotalOfNone(s.counted, row);
      assert RowOk(s, row, limits);
    }
  }

  // ----- Final delivery states -----

  /** Once a row has left Pending, its state does not change again. */
  predicate Absorbing(s: State, t: State) {
    forall row :: row in s.rows && s.rows[row].state != Pending ==> row in t.rows && t.rows[row].state == s.rows[row].state
  }

  predicate IsPending(s: State, row: nat) {
    row in s.rows && s.rows[row].state == Pending
  }

  /** Whatever the owner of the lease has loaded and not finished is still pending. */
  predicate HeldPending(s: State, token: nat)
    requires token in s.workers
  {
    var w := s.workers[token];
    && (forall row :: row in w.memory ==> IsPending(s, row))
    && (!w.stage.Idle? ==> IsPending(s, w.stage.row) && w.stage.row !in w.memory)
  }

  predicate OwnerPending(s: State) {
    s.lease.Some? && s.lease.value in s.workers ==> HeldPending(s, s.lease.value)
  }

  lemma OnlyOwnerActs(s: State, token: nat, limits: Limits)
    requires Inv(s, limits) && limits.pause < LEASE_MS && Acts(s, token, limits.pause)
    ensures s.lease == Some(token)
  {
    LeaseHas(s, token, limits);
  }

  lemma HolderStepAbsorbs(s: State, action: Action, limits: Limits)
    requires action.Check? || action.Stamp? || action.Confirm? || action.Finish? || action.Load? || action.Renew?
    requires OwnerPending(s) && (Acts(s, action.token, limits.pause) ==> s.lease == Some(action.token))
    ensures Absorbing(s, Step(s, action, limits)) && OwnerPending(Step(s, action, limits))
  {
    hide TooLate;
  }

  lemma OtherStepAbsorbs(s: State, action: Action, limits: Limits)
    requires OwnerPending(s)
    requires action.Tick? || action.Enqueue? || action.Acquire? || action.Release? || action.Arrive? || action.Forget?
    ensures Absorbing(s, Step(s, action, limits)) && OwnerPending(Step(s, action, limits))
  {
  }

  lemma StepAbsorbs(s: State, action: Action, limits: Limits)
    requires Inv(s, limits) && limits.pause < LEASE_MS && OwnerPending(s)
    ensures Absorbing(s, Step(s, action, limits)) && OwnerPending(Step(s, action, limits))
  {
    hide Inv, Step, OwnerPending, Absorbing, Acts;
    if action.Check? || action.Stamp? || action.Confirm? || action.Finish? || action.Load? || action.Renew? {
      if Acts(s, action.token, limits.pause) { OnlyOwnerActs(s, action.token, limits); }
      HolderStepAbsorbs(s, action, limits);
    } else {
      OtherStepAbsorbs(s, action, limits);
    }
  }

  lemma {:induction false} RunOwnerPending(trace: seq<Action>, now: int, limits: Limits)
    requires limits.pause < LEASE_MS
    ensures OwnerPending(Run(trace, now, limits))
  {
    if trace != [] {
      hide Step, Inv, OwnerPending;
      var before := Run(trace[..|trace| - 1], now, limits);
      RunOwnerPending(trace[..|trace| - 1], now, limits);
      RunKeepsInv(trace[..|trace| - 1], now, limits);
      StepAbsorbs(before, trace[|trace| - 1], limits);
    }
  }

  /** A holder paused for a whole lease marks as submitted a row that its successor has given up. */
  lemma LateFinishReopens(limits: Limits) returns (s: State, action: Action)
    requires limits.pause >= LEASE_MS
    ensures Reachable(s, limits) && !Absorbing(s, Step(s, action, limits))
  {
    hide Reachable;
    var now := MAX_EVENT_AGE_MS;
    var s0 := Open(now, limits);
    MakeCall(s0, 0, now, 0, limits);
    var s1 := Count(Called(s0, 0, now, 0), Call(0, 0, now), 0, limits);
    Wait(s1, now + LEASE_MS, limits);
    var s2 := s1.(now := now + LEASE_MS);
    TakeOver(s2, limits);
    StepReachable(TakenOver(s2), Check(1, 0), limits);
    s := Step(TakenOver(s2), Check(1, 0), limits);
    action := Finish(0);
    assert s.rows[0].state == ReconciliationRequired;
    assert s.workers[0].stage == Answered(0) && s.workers[0].confirmed == now;
    assert Step(s, action, limits).rows[0].state == Submitted;
  }

  /** SUBMITTED and RECONCILIATION_REQUIRED are final in every run exactly when no holder outlives its lease. */
  lemma FinalStatesAreFinal(limits: Limits)
    ensures (forall s, action :: Reachable(s, limits) ==> Absorbing(s, Step(s, action, limits))) <==> limits.pause < LEASE_MS
  {
    hide Run, Step, Absorbing, Inv, OwnerPending;
    if limits.pause < LEASE_MS {
      forall s, action | Reachable(s, limits) ensures Absorbing(s, Step(s, action, limits)) {
        var trace, now :| Run(trace, now, limits) == s;
        RunOwnerPending(trace, now, limits);
        RunKeepsInv(trace, now, limits);
        StepAbsorbs(s, action, limits);
      }
    } else {
      var s, action := LateFinishReopens(limits);
    }
  }
}
