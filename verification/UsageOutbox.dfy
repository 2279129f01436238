/**
  The delivery loop as it updates the outbox rows in place. Run to its end without a pause, it is a
  sequence of steps of the interleaved protocol, so everything proved of that protocol holds of it.
*/
module UsageOutbox {
  import opened Wrappers
  import opened UsageDelivery
  import opened DeliveryGuarantees

  /** The owner is between two rows, and has the rest of them in memory as they are stored. */
  ghost predicate BetweenRows(t: State, token: nat, rest: seq<nat>) {
    && t.lease == Some(token) && token in t.workers
    && t.workers[token].stage.Idle? && t.workers[token].confirmed == t.now
    && (forall row :: row in t.workers[token].memory <==> row in rest)
    && (forall row :: row in rest ==> row in t.rows && t.rows[row].state == Pending && t.workers[token].memory[row] == t.rows[row].first)
  }

  predicate Distinct(rows: seq<nat>) {
    forall i, j :: 0 <= i < j < |rows| ==> rows[i] != rows[j]
  }

  lemma GiveUp(t: State, token: nat, rest: seq<nat>, limits: Limits)
    requires |rest| > 0 && Distinct(rest) && BetweenRows(t, token, rest)
    requires TooLate(t, t.rows[rest[0]], t.rows[rest[0]].first)
    ensures var u := Step(t, Check(token, rest[0]), limits);
            && BetweenRows(u, token, rest[1..]) && u.now == t.now && u.flagged
            && u.rows == t.rows[rest[0] := t.rows[rest[0]].(state := ReconciliationRequired)]
  {
    assert rest == [rest[0]] + rest[1..];
  }

  function Stamping(row: Row, now: int): Row {
    if row.first.Some? then row else row.(first := Some(now))
  }

  function Handled(s: State, row: Row): Row {
    if TooLate(s, row, row.first) then row.(state := ReconciliationRequired) else Stamping(row, s.now).(state := Submitted)
  }

  /** Check, stamp and confirm: the call is on its way. */
  lemma MakeTheCall(t: State, token: nat, rest: seq<nat>, limits: Limits) returns (u: State)
    requires |rest| > 0 && Distinct(rest) && BetweenRows(t, token, rest)
    requires !TooLate(t, t.rows[rest[0]], t.rows[rest[0]].first)
    requires Reachable(t, limits)
    ensures Reachable(u, limits) && u.now == t.now && u.flagged == t.flagged && u.lease == t.lease &&
            Call(token, rest[0], t.now) in u.calls
    ensures u.rows == t.rows[rest[0] := Stamping(t.rows[rest[0]], t.now)]
    ensures token in u.workers
    ensures u.workers[token] == Worker(t.now, t.workers[token].memory - {rest[0]}, Calling(rest[0]))
  {
    hide Reachable;
    var a := Step(t, Check(token, rest[0]), limits);
    StepReachable(t, Check(token, rest[0]), limits);
    var b := Step(a, Stamp(token), limits);
    StepReachable(a, Stamp(token), limits);
    assert b.rows == t.rows[rest[0] := Stamping(t.rows[rest[0]], t.now)];
    u := Step(b, Confirm(token), limits);
    StepReachable(b, Confirm(token), limits);
  }

  /** The answer arrives and the row is marked. */
  lemma Mark(t: State, token: nat, rest: seq<nat>, limits: Limits) returns (u: State)
    requires |rest| > 0 && Distinct(rest) && Reachable(t, limits) && t.lease == Some(token) && token in t.workers
    requires t.workers[token].confirmed == t.now && t.workers[token].stage == Calling(rest[0]) && rest[0] in t.rows
    requires Call(token, rest[0], t.now) in t.calls
    requires forall row :: row in t.workers[token].memory <==> row in rest[1..]
    requires forall row :: row in rest[1..] ==>
               row in t.rows && t.rows[row].state == Pending && t.workers[token].memory[row] == t.rows[row].first
    ensures Reachable(u, limits) && BetweenRows(u, token, rest[1..]) && u.now == t.now && u.flagged == t.flagged
    ensures u.rows == t.rows[rest[0] := t.rows[rest[0]].(state := Submitted)]
  {
    hide Reachable;
    var call := Call(token, rest[0], t.now);
    var a := Step(t, Arrive(call), limits);
    StepReachable(t, Arrive(call), limits);
    u := Step(a, Finish(token), limits);
    StepReachable(a, Finish(token), limits);
    assert rest[0] !in rest[1..];
  }

  /** An answered pass: the call is made and the row is marked. */
  lemma CallAndMark(t: State, token: nat, rest: seq<nat>, limits: Limits) returns (u: State)
    requires |rest| > 0 && Distinct(rest) && BetweenRows(t, token, rest)
    requires !TooLate(t, t.rows[rest[0]], t.rows[rest[0]].first)
    requires Reachable(t, limits)
    ensures Reachable(u, limits) && BetweenRows(u, token, rest[1..]) && u.now == t.now && u.flagged == t.flagged
    ensures u.rows == t.rows[rest[0] := Handled(t, t.rows[rest[0]])]
  {
    hide Reachable, Step, TooLate;
    u := MakeTheCall(t, token, rest, limits);
    assert rest == [rest[0]] + rest[1..];
    u := Mark(u, token, rest, limits);
  }

  /** What one pass of the loop makes of a row. */
  function AfterPass(s: State, row: Row, answered: bool): Row {
    if answered || TooLate(s, row, row.first) then Handled(s, row) else Stamping(row, s.now)
  }

  /** One pass of the loop is a run of the protocol. */
  lemma DeliverStep(t: State, token: nat, rest: seq<nat>, answered: bool, limits: Limits) returns (u: State)
    requires Reachable(t, limits) && |rest| > 0 && Distinct(rest) && BetweenRows(t, token, rest)
    ensures Reachable(u, limits) && u.now == t.now && rest[0] in t.rows
    ensures u.rows == t.rows[rest[0] := AfterPass(t, t.rows[rest[0]], answered)]
    ensures u.flagged == (t.flagged || TooLate(t, t.rows[rest[0]], t.rows[rest[0]].first))
    ensures answered || TooLate(t, t.rows[rest[0]], t.rows[rest[0]].first) ==> BetweenRows(u, token, rest[1..])
  {
    hide Reachable, Step, Distinct, BetweenRows, TooLate;
    InMemory(t, token, rest);
    if TooLate(t, t.rows[rest[0]], t.rows[rest[0]].first) {
      GiveUp(t, token, rest, limits);
      StepReachable(t, Check(token, rest[0]), limits);
      u := Step(t, Check(token, rest[0]), limits);
    } else if answered {
      u := CallAndMark(t, token, rest, limits);
    } else {
      u := MakeTheCall(t, token, rest, limits);
    }
  }

  /** The first `n` loaded rows have been handled, and no other row has changed. */
  predicate Progress(before: map<nat, Row>, after: map<nat, Row>, s: State, pending: seq<nat>, answers: seq<bool>,
          n: nat)
    requires n <= |pending| == |answers|
  {
    && after.Keys == before.Keys
    && (forall i :: 0 <= i < n ==> pending[i] in before && after[pending[i]] == AfterPass(s, before[pending[i]], answers[i]))
    && (forall row :: row in before && row !in pending[..n] ==> after[row] == before[row])
  }

  lemma NoProgress(before: map<nat, Row>, s: State, pending: seq<nat>, answers: seq<bool>)
    requires |pending| == |answers|
    ensures Progress(before, before, s, pending, answers, 0)
  {
  }

  lemma OneMore(before: map<nat, Row>, after: map<nat, Row>, s: State, pending: seq<nat>, answers: seq<bool>, n: nat)
    requires n < |pending| == |answers| && Distinct(pending) && Progress(before, after, s, pending, answers, n)
    requires pending[n] in after
    ensures pending[n] in before && after[pending[n]] == before[pending[n]]
    ensures Progress(before, after[pending[n] := AfterPass(s, before[pending[n]], answers[n])], s, pending, answers, n + 1)
  {
    assert pending[..n + 1] == pending[..n] + [pending[n]];
    assert pending[n] !in pending[..n];
  }

  class Outbox {
    var rows: map<nat, Row>
    var flagged: bool

    constructor (rows: map<nat, Row>)
      ensures this.rows == rows && !flagged
    {
      this.rows, flagged := rows, false;
    }

    /** The rows and the reconciliation flag are those of the protocol's state. */
    ghost predicate In(t: State)
      reads this
    {
      rows == t.rows && flagged == t.flagged
    }

    /** The body of the loop; it throws when no answer arrives. */
    method Deliver(ghost t: State, token: nat, row: nat, ghost rest: seq<nat>, answered: bool, now: int,
            ghost limits: Limits)
      returns (ok: bool, ghost u: State)
      requires Reachable(t, limits) && In(t) && t.now == now
      requires |rest| > 0 && rest[0] == row && Distinct(rest) && BetweenRows(t, token, rest)
      modifies this
      ensures Reachable(u, limits) && In(u) && u.now == now && row in old(rows)
      ensures flagged == (old(flagged) || TooLate(t, old(rows)[row], old(rows)[row].first))
      ensures rows == old(rows)[row := AfterPass(t, old(rows)[row], answered)]
      ensures ok <==> answered || TooLate(t, old(rows)[row], old(rows)[row].first)
      ensures var r := old(rows)[row];
              var overdue := (r.first.Some? && now > r.first.value + 23 * HOUR_MS) || now > r.timestamp * 1000 + 35 * 24 * HOUR_MS;
              && (ok <==> answered || overdue) && (flagged <==> old(flagged) || overdue)
              && rows == old(rows)[row := if overdue then r.(state := ReconciliationRequired)
                                          else r.(first := if r.first.Some? then r.first else Some(now),
                                                  state := if answered then Submitted else r.state)]
      ensures ok ==> BetweenRows(u, token, rest[1..])
    {
      hide Reachable, BetweenRows, Distinct;
      u := DeliverStep(t, token, rest, answered, limits);
      var first := rows[row].first;
      if (first.Some? && now - first.value > RETRY_WINDOW_MS) || now - rows[row].timestamp * 1000 > MAX_EVENT_AGE_MS {
        rows := rows[row := rows[row].(state := ReconciliationRequired)];
        flagged := true;
        return true, u;
      }
      if first.None? {
        rows := rows[row := rows[row].(first := Some(now))];
      }
      if !answered { return false, u; }
      rows := rows[row := rows[row].(state := Submitted)];
      return true, u;
    }

    /**
      submitUsage over the loaded rows; `answers[i]` says whether the provider's answer to the i-th
      row arrives, and the loop ends at the first one that does not.
    */
    method SubmitUsage(ghost s: State, token: nat, pending: seq<nat>, answers: seq<bool>, now: int,
            ghost limits: Limits)
      returns (handled: nat, ghost t: State)
      requires Reachable(s, limits) && In(s) && s.now == now
      requires |answers| == |pending| && Distinct(pending) && BetweenRows(s, token, pending)
      modifies this
      ensures Reachable(t, limits) && In(t) && handled <= |pending|
      ensures handled == |pending| ==> Progress(old(rows), rows, s, pending, answers, handled)
      ensures handled < |pending| ==> !answers[handled] && Progress(old(rows), rows, s, pending, answers, handled + 1)
      ensures forall i :: 0 <= i < handled ==>
                pending[i] in rows && (rows[pending[i]].state == Submitted ==> answers[i] && IsCounted(t, pending[i]))
    {
      hide Reachable, BetweenRows, IsCounted, AfterPass, TooLate, Progress;
      t := s;
      handled := 0;
      ghost var before := rows;
      NoProgress(before, s, pending, answers);
      while handled < |pending|
        invariant handled <= |pending| && Reachable(t, limits) && In(t) && t.now == now
        invariant BetweenRows(t, token, pending[handled..]) && Progress(before, rows, s, pending, answers, handled)
        invariant forall i :: 0 <= i < handled ==>
                    pending[i] in before && (answers[i] || TooLate(s, before[pending[i]], before[pending[i]].first))
      {
        var ok;
        ghost var rest := pending[handled..];
        assert Distinct(rest) && rest[1..] == pending[handled + 1..];
        ghost var prior, u := rows, t;
        ok, t := Deliver(t, token, pending[handled], rest, answers[handled], now, limits);
        OneMore(before, prior, s, pending, answers, handled);
        SameDecision(u, s, before[pending[handled]], answers[handled]);
        if !ok { break; }
        handled := handled + 1;
      }
      SubmittedRowsCounted(before, t, s, pending, answers, handled, limits);
    }
  }

  lemma InMemory(t: State, token: nat, rest: seq<nat>)
    requires |rest| > 0 && BetweenRows(t, token, rest)
    ensures rest[0] in t.rows
  {
  }

  lemma SameDecision(t: State, s: State, row: Row, answered: bool)
    requires t.now == s.now
    ensures AfterPass(t, row, answered) == AfterPass(s, row, answered)
    ensures TooLate(t, row, row.first) == TooLate(s, row, row.first)
  {
  }

  lemma SubmittedRowsCounted(before: map<nat, Row>, t: State, s: State, pending: seq<nat>, answers: seq<bool>, n: nat,
          limits: Limits)
    requires Reachable(t, limits) && n <= |pending| == |answers|
    requires Progress(before, t.rows, s, pending, answers, n) || (n < |pending| && Progress(before, t.rows, s, pending, answers, n + 1))
    requires forall i :: 0 <= i < n ==> pending[i] in before && (answers[i] || TooLate(s, before[pending[i]], before[pending[i]].first))
    ensures forall i :: 0 <= i < n ==>
              pending[i] in t.rows && (t.rows[pending[i]].state == Submitted ==> answers[i] && IsCounted(t, pending[i]))
  {
    ReachableInv(t, limits);
    forall i | 0 <= i < n
      ensures pending[i] in t.rows && (t.rows[pending[i]].state == Submitted ==> answers[i] && IsCounted(t, pending[i]))
    {
      assert t.rows[pending[i]] == AfterPass(s, before[pending[i]], answers[i]);
      assert RowOk(t, pending[i], limits);
    }
  }
}
