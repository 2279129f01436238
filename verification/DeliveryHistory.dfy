/**
  What the stored usage rows say about the run that stored them, how old usage can be when it is
  counted, and that an undisturbed delivery takes effect.
*/
module DeliveryHistory {
  import opened Wrappers
  import opened UsageDelivery
  import opened DeliveryGuarantees

  // ----- Rows -----

  /** No step changes what a row says, and only an Enqueue adds one. */
  lemma StepKeepsRow(s: State, action: Action, limits: Limits, row: nat)
    ensures row in s.rows ==>
              row in Step(s, action, limits).rows &&
              Step(s, action, limits).rows[row].quantity == s.rows[row].quantity &&
              Step(s, action, limits).rows[row].timestamp == s.rows[row].timestamp
    ensures row !in s.rows && row in Step(s, action, limits).rows ==>
              var r := Step(s, action, limits).rows[row];
              action == Enqueue(row, r.quantity, r.timestamp) && r.state == Pending && r.first.None?
  {
  }

  /** Every row is as it was enqueued, once. */
  lemma {:induction false} RowsAreAsEnqueued(trace: seq<Action>, now: int, limits: Limits, row: nat)
    requires row in Run(trace, now, limits).rows
    ensures var r := Run(trace, now, limits).rows[row];
            exists i :: 0 <= i < |trace| && trace[i] == Enqueue(row, r.quantity, r.timestamp) &&
              row !in Run(trace[..i], now, limits).rows
  {
    hide Step;
    if trace != [] {
      var n := |trace| - 1;
      var s := Run(trace[..n], now, limits);
      StepKeepsRow(s, trace[n], limits, row);
      if row in s.rows {
        RowsAreAsEnqueued(trace[..n], now, limits, row);
        var i :| 0 <= i < n && trace[..n][i] == Enqueue(row, s.rows[row].quantity, s.rows[row].timestamp) &&
                 row !in Run(trace[..n][..i], now, limits).rows;
        assert trace[..n][..i] == trace[..i];
      }
    }
  }

  // ----- Age -----

  /** The row is at most 35 days old, and a little more, at a moment. */
  predicate Young(s: State, row: nat, at: int, more: nat) {
    row in s.rows && at <= s.rows[row].timestamp * 1000 + 35 * 24 * HOUR_MS + more
  }

  predicate StageYoung(s: State, token: nat)
    requires token in s.workers
  {
    match s.workers[token].stage
    case Checked(row, _, checked) => Young(s, row, checked, 0)
    case Stamped(row, _, checked) => Young(s, row, checked, 0)
    case _ => true
  }

  predicate AgeOk(s: State, limits: Limits) {
    && (forall token :: token in s.workers ==> StageYoung(s, token))
    && (forall call :: call in s.calls ==> Young(s, call.row, call.confirmed, limits.pause))
    && (forall i :: 0 <= i < |s.counted| ==> Young(s, s.counted[i].row, s.counted[i].at, limits.pause + limits.latency))
  }

  /** What a step may add: a checked stage, a call by a holder that had checked, or a count of a call. */
  predicate AgesWell(s: State, t: State, limits: Limits) {
    && (forall row :: row in s.rows ==> row in t.rows && t.rows[row].timestamp == s.rows[row].timestamp)
    && (forall token :: token in t.workers && (token in s.workers ==> t.workers[token].stage != s.workers[token].stage) ==>
          StageYoung(t, token))
    && (forall call :: call in t.calls && call !in s.calls ==> Young(s, call.row, call.confirmed, limits.pause))
    && |s.counted| <= |t.counted| && t.counted[..|s.counted|] == s.counted
    && (forall i :: |s.counted| <= i < |t.counted| ==> Young(s, t.counted[i].row, t.counted[i].at, limits.pause + limits.latency))
  }

  lemma AgesWellKeeps(s: State, t: State, limits: Limits)
    requires AgeOk(s, limits) && AgesWell(s, t, limits)
    ensures AgeOk(t, limits)
  {
    forall token | token in t.workers ensures StageYoung(t, token) {
      if token in s.workers && t.workers[token].stage == s.workers[token].stage { assert StageYoung(s, token); }
    }
    forall call | call in t.calls ensures Young(t, call.row, call.confirmed, limits.pause) {
      if call in s.calls { assert Young(s, call.row, call.confirmed, limits.pause); }
    }
    forall i | 0 <= i < |t.counted| ensures Young(t, t.counted[i].row, t.counted[i].at, limits.pause + limits.latency) {
      if i < |s.counted| { assert t.counted[i] == s.counted[i]; }
    }
  }

  lemma RowStepAges(s: State, action: Action, limits: Limits)
    requires AgeOk(s, limits) && (action.Tick? || action.Enqueue? || action.Forget?)
    ensures AgesWell(s, Step(s, action, limits), limits)
  {
  }

  lemma LeaseStepAges(s: State, action: Action, limits: Limits)
    requires AgeOk(s, limits) && (action.Acquire? || action.Renew? || action.Release?)
    ensures AgesWell(s, Step(s, action, limits), limits)
  {
  }

  lemma LoopStepAges(s: State, action: Action, limits: Limits)
    requires AgeOk(s, limits) && (action.Load? || action.Finish?)
    ensures AgesWell(s, Step(s, action, limits), limits)
  {
  }

  lemma CheckAges(s: State, token: nat, row: nat, limits: Limits)
    requires AgeOk(s, limits)
    ensures AgesWell(s, Step(s, Check(token, row), limits), limits)
  {
  }

  lemma StampAges(s: State, token: nat, limits: Limits)
    requires AgeOk(s, limits)
    ensures AgesWell(s, Step(s, Stamp(token), limits), limits)
  {
    if token in s.workers { assert StageYoung(s, token); }
  }

  lemma ConfirmAges(s: State, token: nat, limits: Limits)
    requires AgeOk(s, limits) && WorkersOk(s, limits)
    ensures AgesWell(s, Step(s, Confirm(token), limits), limits)
  {
    if token in s.workers {
      assert StageYoung(s, token) && StageOk(s, token, limits);
    }
  }

  lemma ArriveAges(s: State, call: Call, limits: Limits)
    requires AgeOk(s, limits)
    ensures AgesWell(s, Step(s, Arrive(call), limits), limits)
  {
    if call in s.calls { assert Young(s, call.row, call.confirmed, limits.pause); }
  }

  lemma {:induction false} RunKeepsAge(trace: seq<Action>, now: int, limits: Limits)
    ensures AgeOk(Run(trace, now, limits), limits)
  {
    if trace != [] {
      hide Step, AgeOk, AgesWell, CallsOk, RowsOk, CountsOk, WorkersOk;
      var s, action := Run(trace[..|trace| - 1], now, limits), trace[|trace| - 1];
      RunKeepsAge(trace[..|trace| - 1], now, limits);
      RunKeepsInv(trace[..|trace| - 1], now, limits);
      if action.Confirm? { ConfirmAges(s, action.token, limits); }
      else if action.Arrive? { ArriveAges(s, action.call, limits); }
      else if action.Check? { CheckAges(s, action.token, action.row, limits); }
      else if action.Stamp? { StampAges(s, action.token, limits); }
      else if action.Load? || action.Finish? { LoopStepAges(s, action, limits); }
      else if action.Acquire? || action.Renew? || action.Release? { LeaseStepAges(s, action, limits); }
      else { RowStepAges(s, action, limits); }
      AgesWellKeeps(s, Step(s, action, limits), limits);
    } else {
      hide Step;
    }
  }

  /** In every run, usage is counted at most 35 days after its timestamp, but for one pause and one latency. */
  lemma CountedInTime(trace: seq<Action>, now: int, limits: Limits, i: nat)
    requires i < |Run(trace, now, limits).counted|
    ensures var s := Run(trace, now, limits);
            s.counted[i].row in s.rows &&
            s.counted[i].at <= s.rows[s.counted[i].row].timestamp * 1000 + 35 * 24 * HOUR_MS + limits.pause + limits.latency
  {
    hide Run;
    RunKeepsAge(trace, now, limits);
  }

  // ----- What a holder achieves -----

  /** The holder that acquires a free lease and loads one pending row. */
  function Loading(s: State, row: nat, limits: Limits): State {
    Step(Step(s, Acquire(s.now), limits), Load(s.tokens, {row}), limits)
  }

  predicate Overdue(s: State, row: nat)
    requires row in s.rows
  {
    || (s.rows[row].first.Some? && s.now > s.rows[row].first.value + 23 * HOUR_MS)
    || s.now > s.rows[row].timestamp * 1000 + 35 * 24 * HOUR_MS
  }

  /** A free lease is acquired for five minutes from the clock reading, and an unexpired one by nobody. */
  lemma AcquiresExactly(s: State, at: int, limits: Limits)
    requires at <= s.now
    ensures var t := Step(s, Acquire(at), limits);
            if s.lease.None? || s.leaseUntil <= at then
              && t.lease == Some(s.tokens) && t.leaseUntil == at + 5 * 60_000
              && t.workers == s.workers[s.tokens := Worker(at, map[], Idle)] && t.rows == s.rows
            else t == s
  {
  }

  /** Renewing confirms the owner for another five minutes, in which nobody else acquires the lease; others are turned away. */
  lemma RenewalKeepsLease(s: State, token: nat, limits: Limits, later: int, at: int)
    requires token in s.workers && s.workers[token].stage.Idle? && s.now <= s.workers[token].confirmed + limits.pause
    ensures var t := Step(s, Renew(token), limits);
            if s.lease == Some(token) then
              && t.lease == Some(token) && token in t.workers && t.workers[token] == s.workers[token].(confirmed := s.now)
              && t.leaseUntil == s.now + 5 * 60_000
              && (at < s.now + 5 * 60_000 ==> Step(t.(now := later), Acquire(at), limits) == t.(now := later))
            else token !in t.workers && t.lease == s.lease && t.rows == s.rows
  {
  }

  /** Every pending row that was picked is in memory as it is stored, and no other. */
  lemma LoadsPending(s: State, pick: set<nat>, limits: Limits)
    requires s.lease.None?
    ensures var t := Step(Step(s, Acquire(s.now), limits), Load(s.tokens, pick), limits);
            && t.lease == Some(s.tokens) && t.rows == s.rows && s.tokens in t.workers
            && t.workers[s.tokens].stage.Idle? && t.workers[s.tokens].confirmed == s.now
            && (forall row :: row in t.workers[s.tokens].memory <==> row in pick && row in s.rows && s.rows[row].state == Pending)
            && forall row :: row in t.workers[s.tokens].memory ==> t.workers[s.tokens].memory[row] == s.rows[row].first
  {
  }

  /** Undisturbed, a pending row that is not overdue is counted, unless the provider still remembers it, and marked. */
  lemma DeliverySucceeds(s: State, row: nat, limits: Limits)
    requires s.lease.None? && row in s.rows && s.rows[row].state == Pending && !Overdue(s, row)
    ensures var token := s.tokens;
            var a := Step(Step(Step(Loading(s, row, limits), Check(token, row), limits), Stamp(token), limits), Confirm(token), limits);
            var t := Step(Step(a, Arrive(Call(token, row, s.now)), limits), Finish(token), limits);
            && t.rows == s.rows[row := s.rows[row].(state := Submitted,
                                                    first := if s.rows[row].first.Some? then s.rows[row].first else Some(s.now))]
            && t.counted == s.counted + (if row in s.remembered then [] else [Counted(row, s.rows[row].quantity, s.now)])
            && row in t.remembered && t.flagged == s.flagged
  {
    hide Step;
    CallIsMade(s, row, limits);
    CallIsAnswered(Made(s, row), s.tokens, row, limits);
  }

  /** The state in which the call for a row is under way. */
  function Made(s: State, row: nat): State
    requires row in s.rows
  {
    var first := s.rows[row].first;
    s.(lease := Some(s.tokens), leaseUntil := s.now + LEASE_MS, tokens := s.tokens + 1, calls := s.calls + {Call(s.tokens, row, s.now)},
       rows := s.rows[row := s.rows[row].(first := if first.Some? then first else Some(s.now))],
       workers := s.workers[s.tokens := Worker(s.now, map[], Calling(row))])
  }

  lemma LoadsOne(s: State, row: nat, limits: Limits)
    requires s.lease.None? && row in s.rows && s.rows[row].state == Pending
    ensures Loading(s, row, limits) ==
            s.(lease := Some(s.tokens), leaseUntil := s.now + LEASE_MS, tokens := s.tokens + 1,
               workers := s.workers[s.tokens := Worker(s.now, map[row := s.rows[row].first], Idle)])
  {
    LoadsPending(s, {row}, limits);
    var t, token := Loading(s, row, limits), s.tokens;
    assert t.workers[token].memory == map[row := s.rows[row].first];
    assert t.workers[token] == Worker(s.now, map[row := s.rows[row].first], Idle);
    assert t.workers == s.workers[token := t.workers[token]];
  }

  lemma CallIsMade(s: State, row: nat, limits: Limits)
    requires s.lease.None? && row in s.rows && s.rows[row].state == Pending && !Overdue(s, row)
    ensures var token := s.tokens;
            Step(Step(Step(Loading(s, row, limits), Check(token, row), limits), Stamp(token), limits), Confirm(token), limits)
            == Made(s, row)
  {
    hide Step, Loading;
    LoadsOne(s, row, limits);
    CheckStampConfirm(Loading(s, row, limits), s.tokens, row, limits);
    var a := Loading(s, row, limits);
    var w := Worker(s.now, map[], Calling(row));
    assert a.workers[s.tokens := w] == s.workers[s.tokens := w];
  }

  lemma CheckStampConfirm(s: State, token: nat, row: nat, limits: Limits)
    requires row in s.rows && !Overdue(s, row) && s.lease == Some(token) && s.leaseUntil == s.now + LEASE_MS
    requires token in s.workers && s.workers[token] == Worker(s.now, map[row := s.rows[row].first], Idle)
    ensures Step(Step(Step(s, Check(token, row), limits), Stamp(token), limits), Confirm(token), limits) ==
            s.(calls := s.calls + {Call(token, row, s.now)}, workers := s.workers[token := Worker(s.now, map[], Calling(row))],
               rows := s.rows[row := s.rows[row].(first := if s.rows[row].first.Some? then s.rows[row].first else Some(s.now))])
  {
    var first := s.rows[row].first;
    assert map[row := first] - {row} == map[];
    var b := Step(s, Check(token, row), limits);
    assert b == s.(workers := s.workers[token := Worker(s.now, map[], Checked(row, first, s.now))]);
    hide Overdue, CheckedRow;
    var stamped := Worker(s.now, map[], Stamped(row, first, s.now));
    assert b.workers[token := stamped] == s.workers[token := stamped];
    var w := Worker(s.now, map[], Calling(row));
    assert s.workers[token := stamped][token := w] == s.workers[token := w];
    assert first.Some? ==> s.rows[row := s.rows[row].(first := first)] == s.rows;
  }

  lemma CallIsAnswered(s: State, token: nat, row: nat, limits: Limits)
    requires row in s.rows && Call(token, row, s.now) in s.calls
    requires token in s.workers && s.workers[token] == Worker(s.now, map[], Calling(row))
    ensures var t := Step(Step(s, Arrive(Call(token, row, s.now)), limits), Finish(token), limits);
            && t.rows == s.rows[row := s.rows[row].(state := Submitted)]
            && t.counted == s.counted + (if row in s.remembered then [] else [Counted(row, s.rows[row].quantity, s.now)])
            && row in t.remembered && t.flagged == s.flagged
  {
  }

  /** An overdue row is given up and reconciliation is required; no call is made for it. */
  lemma OverdueIsGivenUp(s: State, row: nat, limits: Limits)
    requires s.lease.None? && row in s.rows && s.rows[row].state == Pending && Overdue(s, row)
    ensures var t := Step(Loading(s, row, limits), Check(s.tokens, row), limits);
            && t.rows == s.rows[row := s.rows[row].(state := ReconciliationRequired)] && t.flagged
            && t.calls == s.calls && t.counted == s.counted
  {
    LoadsPending(s, {row}, limits);
  }
}
