/**
  Creating a customer, Checkout session or subscription at the payment provider, at most once per
  idempotency key. One subscription document holds the lease, the operation's key, the time of the
  first attempt and the created resource; each lease holder works on its own copy of the document.
  The provider keeps a key for at least 24 hours and may then forget it at any time.
*/
module Attempts {
  import opened Wrappers

  const HOUR_MS := 3_600_000
  const LEASE_MS := 5 * 60 * 1000
  const RETRY_WINDOW_MS := 23 * HOUR_MS
  const KEY_RETENTION_MS := 24 * HOUR_MS

  /** The operation's key, its first attempt and its resource, in the database or in a holder's memory. */
  datatype Slot = Slot(key: Option<nat>, first: Option<int>, resource: Option<nat>)

  /** `checked` is the clock reading of an attempt that allowed a call. */
  datatype Holder = Holder(slot: Slot, checked: Option<int>, response: Option<nat>)

  datatype Call = Call(token: nat, key: nat, checked: int)

  datatype Creation = Creation(key: nat, at: int)

  /**
    Resources are numbered in the order of their creation; `firsts` remembers every first attempt.
    `flagged` says that reconciliation was recorded as required.
  */
  datatype State = State(
    now: int,
    stored: Slot,
    lease: Option<nat>,
    leaseUntil: int,
    tokens: nat,
    keys: nat,
    holders: map<nat, Holder>,
    calls: set<Call>,
    created: seq<Creation>,
    remembered: map<nat, nat>,
    firsts: map<nat, int>,
    flagged: bool)

  datatype Action =
    | Tick(until: int)
    | Acquire(at: int)
    | Release(token: nat)
    | NewOperation(token: nat)
    | Attempt(token: nat)
    | IssueCall(token: nat)
    | Arrive(call: Call)
    | Persist(token: nat)
    | Forget(key: nat)

  /** withLease: the holder keeps the document the update returned. */
  function Acquired(s: State, at: int): State {
    if at > s.now || (s.lease.Some? && s.leaseUntil > at) then s
    else
      s.(lease := Some(s.tokens), leaseUntil := at + LEASE_MS, tokens := s.tokens + 1,
         holders := s.holders[s.tokens := Holder(s.stored, None, None)])
  }

  /** The filter of `update`: the token must still be the holder's; its expiry does not matter. */
  predicate Owns(s: State, token: nat) {
    token in s.holders && s.lease == Some(token)
  }

  function Operated(s: State, token: nat): State {
    if !Owns(s, token) then s
    else
      var slot := Slot(Some(s.keys), None, None);
      s.(stored := slot, keys := s.keys + 1, holders := s.holders[token := Holder(slot, None, None)])
  }

  /** `attempt`: the first time is persisted before the first call; later ones only look at the holder's memory. */
  function Attempted(s: State, token: nat): State {
    if token !in s.holders || s.holders[token].slot.key.None? then s
    else
      var holder := s.holders[token];
      match holder.slot.first
      case Some(first) =>
        if s.now - first > RETRY_WINDOW_MS then if Owns(s, token) then s.(flagged := true) else s
        else s.(holders := s.holders[token := holder.(checked := Some(s.now))])
      case None =>
        if !Owns(s, token) then s
        else
          s.(stored := s.stored.(first := Some(s.now)), firsts := s.firsts[holder.slot.key.value := s.now],
             holders := s.holders[token := holder.(slot := holder.slot.(first := Some(s.now)), checked := Some(s.now))])
  }

  function Issued(s: State, token: nat): State {
    if token in s.holders && s.holders[token].checked.Some? && s.holders[token].slot.key.Some? then
      var holder := s.holders[token];
      s.(calls := s.calls + {Call(token, holder.slot.key.value, holder.checked.value)},
         holders := s.holders[token := holder.(checked := None)])
    else s
  }

  /** The holder that made the call reads the answer, if it still waits for it. */
  function Answered(holders: map<nat, Holder>, call: Call, resource: nat): map<nat, Holder> {
    if call.token in holders && holders[call.token].slot.key == Some(call.key) then
      holders[call.token := holders[call.token].(response := Some(resource))]
    else holders
  }

  /** A call reaches the provider, perhaps repeatedly, within `delay` of the check that allowed it. */
  function Arrived(s: State, call: Call, delay: nat): State {
    if call !in s.calls || s.now > call.checked + delay then s
    else if call.key in s.remembered then s.(holders := Answered(s.holders, call, s.remembered[call.key]))
    else
      s.(created := s.created + [Creation(call.key, s.now)], remembered := s.remembered[call.key := |s.created|],
         holders := Answered(s.holders, call, |s.created|))
  }

  function Persisted(s: State, token: nat): State {
    if Owns(s, token) && s.holders[token].response.Some? then
      var holder := s.holders[token];
      s.(stored := s.stored.(resource := holder.response),
         holders := s.holders[token := holder.(slot := holder.slot.(resource := holder.response))])
    else s
  }

  function Forgotten(s: State, key: nat): State {
    if key in s.remembered && s.remembered[key] < |s.created| &&
       s.now >= s.created[s.remembered[key]].at + KEY_RETENTION_MS then s.(remembered := s.remembered - {key})
    else s
  }

  function Step(s: State, action: Action, delay: nat): State {
    match action
    case Tick(until) => if until >= s.now then s.(now := until) else s
    case Acquire(at) => Acquired(s, at)
    case Release(token) => if s.lease == Some(token) then s.(lease := None) else s
    case NewOperation(token) => Operated(s, token)
    case Attempt(token) => Attempted(s, token)
    case IssueCall(token) => Issued(s, token)
    case Arrive(call) => Arrived(s, call, delay)
    case Persist(token) => Persisted(s, token)
    case Forget(key) => Forgotten(s, key)
  }

  function Initial(now: int): State {
    State(now, Slot(None, None, None), None, now, 0, 0, map[], {}, [], map[], map[], false)
  }

  function Run(trace: seq<Action>, now: int, delay: nat): State {
    if trace == [] then Initial(now) else Step(Run(trace[..|trace| - 1], now, delay), trace[|trace| - 1], delay)
  }

  // ----- The invariant -----

  /** A slot's key is known, and its first attempt is the one that key ever had. */
  predicate SlotOk(s: State, slot: Slot) {
    && (slot.key.Some? ==> slot.key.value < s.keys)
    && (slot.first.Some? ==> slot.key.Some? && slot.key.value in s.firsts && s.firsts[slot.key.value] == slot.first.value)
    && (slot.resource.Some? ==>
          slot.key.Some? && slot.resource.value < |s.created| && s.created[slot.resource.value].key == slot.key.value)
  }

  predicate StoredOk(s: State) {
    && SlotOk(s, s.stored)
    && (s.stored.key.Some? && s.stored.first.None? ==> s.stored.key.value !in s.firsts)
    && (forall key :: key in s.firsts ==> key < s.keys && s.firsts[key] <= s.now)
  }

  predicate HolderOk(s: State, token: nat)
    requires token in s.holders
  {
    var holder := s.holders[token];
    && token < s.tokens
    && SlotOk(s, holder.slot)
    && (s.lease == Some(token) ==> holder.slot.key == s.stored.key && holder.slot.first == s.stored.first)
    && (holder.checked.Some? ==> holder.slot.first.Some? && holder.checked.value - holder.slot.first.value <= RETRY_WINDOW_MS)
    && (holder.response.Some? ==>
          holder.slot.key.Some? && holder.response.value < |s.created| && s.created[holder.response.value].key == holder.slot.key.value)
  }

  /** No call was allowed more than 23 hours after the first attempt with its key. */
  predicate CallOk(s: State, call: Call) {
    call.key in s.firsts && call.checked - s.firsts[call.key] <= RETRY_WINDOW_MS
  }

  /** Nothing is created before the first attempt, and a key is forgotten only a day after its last creation. */
  predicate CreationOk(s: State, i: nat)
    requires i < |s.created|
  {
    && s.created[i].key in s.firsts && s.firsts[s.created[i].key] <= s.created[i].at <= s.now
    && (s.created[i].key in s.remembered || s.now >= s.created[i].at + KEY_RETENTION_MS)
  }

  predicate RememberedOk(s: State) {
    forall key :: key in s.remembered ==>
      && s.remembered[key] < |s.created| && s.created[s.remembered[key]].key == key
      && forall i :: s.remembered[key] < i < |s.created| ==> s.created[i].key != key
  }

  predicate InOrder(created: seq<Creation>) {
    forall i, j :: 0 <= i <= j < |created| ==> created[i].at <= created[j].at
  }

  predicate HoldersOk(s: State) {
    && (forall token :: token in s.holders ==> HolderOk(s, token))
    && (s.lease.Some? ==> s.lease.value < s.tokens)
  }

  predicate ProviderOk(s: State) {
    && (forall call :: call in s.calls ==> CallOk(s, call))
    && (forall i :: 0 <= i < |s.created| ==> CreationOk(s, i))
    && RememberedOk(s) && InOrder(s.created)
  }

  predicate Inv(s: State) {
    StoredOk(s) && HoldersOk(s) && ProviderOk(s)
  }

  predicate AtMostOnce(s: State) {
    forall i, j :: 0 <= i < j < |s.created| ==> s.created[i].key != s.created[j].key
  }

  /** First attempts and creations are only ever added. */
  predicate Grows(s: State, t: State) {
    && s.keys <= t.keys && s.tokens <= t.tokens && |s.created| <= |t.created| && s.now <= t.now
    && (forall key :: key in s.firsts ==> key in t.firsts && t.firsts[key] == s.firsts[key])
    && (forall i :: 0 <= i < |s.created| ==> t.created[i] == s.created[i])
  }

  lemma ProviderKept(s: State, t: State)
    requires ProviderOk(s) && Grows(s, t) && t.created == s.created && t.remembered == s.remembered
    requires forall call :: call in t.calls && call !in s.calls ==> CallOk(t, call)
    ensures ProviderOk(t)
  {
    forall i | 0 <= i < |t.created| ensures CreationOk(t, i) { assert CreationOk(s, i); }
    forall call | call in t.calls ensures CallOk(t, call) { if call in s.calls { assert CallOk(s, call); } }
  }

  lemma HolderKept(s: State, t: State, token: nat)
    requires token in s.holders && HolderOk(s, token) && Grows(s, t) && token in t.holders
    requires t.holders[token] == s.holders[token]
    requires t.lease == Some(token) ==> s.lease == Some(token) && t.stored.key == s.stored.key && t.stored.first == s.stored.first
    ensures HolderOk(t, token)
  {
  }

  lemma OtherHoldersKept(s: State, t: State, token: nat)
    requires HoldersOk(s) && Grows(s, t) && t.holders.Keys == s.holders.Keys + {token} && token in t.holders
    requires forall other :: other in t.holders && other != token ==> t.holders[other] == s.holders[other]
    requires t.lease.Some? && t.lease.value != token ==>
               s.lease == t.lease && t.stored.key == s.stored.key && t.stored.first == s.stored.first
    requires HolderOk(t, token) && (t.lease.Some? ==> t.lease.value < t.tokens)
    ensures HoldersOk(t)
  {
    hide Grows, HolderOk;
    forall other | other in t.holders ensures HolderOk(t, other) {
      if other != token {
        assert HolderOk(s, other);
        HolderKept(s, t, other);
      }
    }
  }

  lemma HolderOf(s: State, token: nat)
    requires HoldersOk(s) && token in s.holders
    ensures HolderOk(s, token) && (s.lease.Some? ==> s.lease.value < s.tokens)
  {
  }

  lemma AttemptKeepsInv(s: State, token: nat)
    requires Inv(s)
    ensures Inv(Attempted(s, token))
  {
    hide HoldersOk, ProviderOk, HolderOk;
    var t := Attempted(s, token);
    if t != s {
      HolderOf(s, token);
      AttemptIsOk(s, token);
      ProviderKept(s, t);
      OtherHoldersKept(s, t, token);
    }
  }

  lemma AttemptIsOk(s: State, token: nat)
    requires StoredOk(s) && token in s.holders && HolderOk(s, token) && Attempted(s, token) != s
    ensures var t := Attempted(s, token);
            StoredOk(t) && Grows(s, t) && HolderOk(t, token) && forall call :: call in t.calls && call !in s.calls ==> CallOk(t, call)
  {
  }

  lemma AcquireKeepsInv(s: State, at: int)
    requires Inv(s)
    ensures Inv(Acquired(s, at))
  {
    var t := Acquired(s, at);
    if t != s {
      hide ProviderOk, HoldersOk;
      ProviderKept(s, t);
      OtherHoldersKept(s, t, s.tokens);
    }
  }

  lemma OperateKeepsInv(s: State, token: nat)
    requires Inv(s)
    ensures Inv(Operated(s, token))
  {
    hide HoldersOk, ProviderOk, HolderOk;
    var t := Operated(s, token);
    if t != s {
      HolderOf(s, token);
      OperateIsOk(s, token);
      ProviderKept(s, t);
      OtherHoldersKept(s, t, token);
    }
  }

  lemma OperateIsOk(s: State, token: nat)
    requires StoredOk(s) && token in s.holders && HolderOk(s, token) && Operated(s, token) != s
    ensures var t := Operated(s, token);
            StoredOk(t) && Grows(s, t) && HolderOk(t, token) && forall call :: call in t.calls && call !in s.calls ==> CallOk(t, call)
  {
  }

  lemma PersistKeepsInv(s: State, token: nat)
    requires Inv(s)
    ensures Inv(Persisted(s, token))
  {
    hide HoldersOk, ProviderOk, HolderOk;
    var t := Persisted(s, token);
    if t != s {
      HolderOf(s, token);
      PersistIsOk(s, token);
      ProviderKept(s, t);
      OtherHoldersKept(s, t, token);
    }
  }

  lemma PersistIsOk(s: State, token: nat)
    requires StoredOk(s) && token in s.holders && HolderOk(s, token) && Persisted(s, token) != s
    ensures var t := Persisted(s, token);
            StoredOk(t) && Grows(s, t) && HolderOk(t, token) && forall call :: call in t.calls && call !in s.calls ==> CallOk(t, call)
  {
  }

  lemma IssueKeepsInv(s: State, token: nat)
    requires Inv(s)
    ensures Inv(Issued(s, token))
  {
    hide HoldersOk, ProviderOk, HolderOk;
    var t := Issued(s, token);
    if t != s {
      HolderOf(s, token);
      IssueIsOk(s, token);
      ProviderKept(s, t);
      OtherHoldersKept(s, t, token);
    }
  }

  lemma IssueIsOk(s: State, token: nat)
    requires StoredOk(s) && token in s.holders && HolderOk(s, token) && Issued(s, token) != s
    ensures var t := Issued(s, token);
            StoredOk(t) && Grows(s, t) && HolderOk(t, token) && forall call :: call in t.calls && call !in s.calls ==> CallOk(t, call)
  {
  }

  lemma ReleaseKeepsInv(s: State, token: nat)
    requires Inv(s)
    ensures Inv(s.(lease := None))
  {
    var t := s.(lease := None);
    forall other | other in t.holders ensures HolderOk(t, other) { assert HolderOk(s, other); }
    ProviderKept(s, t);
  }

  lemma ArriveKeepsInv(s: State, call: Call, delay: nat)
    requires Inv(s)
    ensures Inv(Arrived(s, call, delay))
  {
    hide ProviderOk, HolderOk;
    var t := Arrived(s, call, delay);
    if t != s {
      KnownResource(s, call.key);
      ArriveKeepsProvider(s, call, delay);
      forall other | other in t.holders ensures HolderOk(t, other) {
        AnsweredIsOk(s, call, delay, other);
      }
    }
  }

  lemma KnownResource(s: State, key: nat)
    requires ProviderOk(s)
    ensures key in s.remembered ==> s.remembered[key] < |s.created| && s.created[s.remembered[key]].key == key
  {
  }

  lemma AnsweredIsOk(s: State, call: Call, delay: nat, token: nat)
    requires token in s.holders && HolderOk(s, token) && Arrived(s, call, delay) != s
    requires call.key in s.remembered ==>
               s.remembered[call.key] < |s.created| && s.created[s.remembered[call.key]].key == call.key
    ensures token in Arrived(s, call, delay).holders && HolderOk(Arrived(s, call, delay), token)
  {
    var t := Arrived(s, call, delay);
    ArrivedGrows(s, call, delay);
    if t.holders[token] == s.holders[token] {
      hide HolderOk, Arrived;
      HolderKept(s, t, token);
    } else {
      AnswerIsOk(s, t, token);
    }
  }

  lemma ArrivedGrows(s: State, call: Call, delay: nat)
    ensures var t := Arrived(s, call, delay);
            Grows(s, t) && t.stored == s.stored && t.lease == s.lease && t.holders.Keys == s.holders.Keys
  {
  }

  /** Only the response of a holder changes, to a resource of its key. */
  lemma AnswerIsOk(s: State, t: State, token: nat)
    requires token in s.holders && HolderOk(s, token) && Grows(s, t) && t.stored == s.stored && t.lease == s.lease
    requires token in t.holders && t.holders[token] == s.holders[token].(response := t.holders[token].response)
    requires var response := t.holders[token].response;
             response.Some? && s.holders[token].slot.key.Some? && response.value < |t.created| &&
             t.created[response.value].key == s.holders[token].slot.key.value
    ensures HolderOk(t, token)
  {
  }

  lemma ArriveKeepsProvider(s: State, call: Call, delay: nat)
    requires ProviderOk(s) && StoredOk(s)
    ensures ProviderOk(Arrived(s, call, delay))
  {
    var t := Arrived(s, call, delay);
    if t != s {
      assert CallOk(s, call);
      forall i | 0 <= i < |t.created| ensures CreationOk(t, i) { if i < |s.created| { assert CreationOk(s, i); } }
      forall c | c in t.calls ensures CallOk(t, c) { assert CallOk(s, c); }
      forall i, j | 0 <= i <= j < |t.created| ensures t.created[i].at <= t.created[j].at {
        if i < |s.created| { assert CreationOk(s, i); }
      }
    }
  }

  lemma TickKeepsInv(s: State, until: int)
    requires Inv(s) && until >= s.now
    ensures Inv(s.(now := until))
  {
    hide HolderOk;
    var t := s.(now := until);
    forall other | other in t.holders ensures HolderOk(t, other) { HolderKept(s, t, other); }
    forall call | call in t.calls ensures CallOk(t, call) { assert CallOk(s, call); }
    forall i | 0 <= i < |t.created| ensures CreationOk(t, i) { assert CreationOk(s, i); }
  }

  lemma ForgetKeepsInv(s: State, key: nat)
    requires Inv(s)
    ensures Inv(Forgotten(s, key))
  {
    hide HolderOk;
    var t := Forgotten(s, key);
    if t != s {
      forall other | other in t.holders ensures HolderOk(t, other) { HolderKept(s, t, other); }
      forall call | call in t.calls ensures CallOk(t, call) { assert CallOk(s, call); }
      forall i | 0 <= i < |t.created| ensures CreationOk(t, i) {
        assert CreationOk(s, i);
        if s.created[i].key == key {
          assert i <= s.remembered[key];
        }
      }
    }
  }

  lemma StepKeepsInv(s: State, action: Action, delay: nat)
    requires Inv(s)
    ensures Inv(Step(s, action, delay))
  {
    hide Inv, Acquired, Operated, Attempted, Issued, Arrived, Persisted, Forgotten;
    match action
    case Attempt(token) => AttemptKeepsInv(s, token);
    case IssueCall(token) => IssueKeepsInv(s, token);
    case Arrive(call) => ArriveKeepsInv(s, call, delay);
    case Tick(until) => if until >= s.now { TickKeepsInv(s, until); }
    case Forget(key) => ForgetKeepsInv(s, key);
    case Acquire(at) => AcquireKeepsInv(s, at);
    case Release(token) => ReleaseKeepsInv(s, token);
    case NewOperation(token) => OperateKeepsInv(s, token);
    case Persist(token) => PersistKeepsInv(s, token);
  }

  lemma {:induction false} RunKeepsInv(trace: seq<Action>, now: int, delay: nat)
    ensures Inv(Run(trace, now, delay))
  {
    if trace != [] {
      hide Step, Inv;
      RunKeepsInv(trace[..|trace| - 1], now, delay);
      StepKeepsInv(Run(trace[..|trace| - 1], now, delay), trace[|trace| - 1], delay);
    }
  }

  // ----- At most one resource for each key -----

  /** A late call finds its key still remembered: 23 hours to the check, less than one more to the provider. */
  lemma ArriveOnce(s: State, call: Call, delay: nat)
    requires Inv(s) && AtMostOnce(s) && delay < HOUR_MS
    ensures AtMostOnce(Arrived(s, call, delay))
  {
    if call in s.calls && s.now <= call.checked + delay && call.key !in s.remembered {
      assert CallOk(s, call);
      forall i | 0 <= i < |s.created| ensures s.created[i].key != call.key {
        assert CreationOk(s, i);
      }
    }
  }

  lemma StepOnce(s: State, action: Action, delay: nat)
    requires Inv(s) && AtMostOnce(s) && delay < HOUR_MS
    ensures AtMostOnce(Step(s, action, delay))
  {
    hide Inv;
    if action.Arrive? {
      hide Arrived, AtMostOnce;
      ArriveOnce(s, action.call, delay);
    }
  }

  lemma {:induction false} RunOnce(trace: seq<Action>, now: int, delay: nat)
    requires delay < HOUR_MS
    ensures AtMostOnce(Run(trace, now, delay))
  {
    if trace != [] {
      hide Step, Inv, AtMostOnce;
      var before := Run(trace[..|trace| - 1], now, delay);
      RunOnce(trace[..|trace| - 1], now, delay);
      RunKeepsInv(trace[..|trace| - 1], now, delay);
      StepOnce(before, trace[|trace| - 1], delay);
    }
  }

  /** A holder crashes after its call; a day less an hour later another one retries, and its call takes the hour. */
  function Slow(now: int): seq<Action> {
    [] + [Acquire(now)] + [NewOperation(0)] + [Attempt(0)] + [IssueCall(0)] + [Arrive(Call(0, 0, now))]
    + [Tick(now + RETRY_WINDOW_MS)] + [Acquire(now + RETRY_WINDOW_MS)] + [Attempt(1)] + [IssueCall(1)]
    + [Tick(now + KEY_RETENTION_MS)] + [Forget(0)] + [Arrive(Call(1, 0, now + RETRY_WINDOW_MS))]
  }

  lemma RunOneMore(trace: seq<Action>, action: Action, now: int, delay: nat)
    ensures Run(trace + [action], now, delay) == Step(Run(trace, now, delay), action, delay)
  {
    assert (trace + [action])[..|trace|] == trace;
  }

  /** The state in which the first holder has crashed after its call created the resource. */
  function AfterFirst(now: int): State {
    var slot := Slot(Some(0), Some(now), None);
    State(now, slot, Some(0), now + LEASE_MS, 1, 1, map[0 := Holder(slot, None, Some(0))], {Call(0, 0, now)},
          [Creation(0, now)], map[0 := 0], map[0 := now], false)
  }

  lemma FirstCreates(now: int, delay: nat)
    ensures var s := Step(Step(Step(Initial(now), Acquire(now), delay), NewOperation(0), delay), Attempt(0), delay);
            Step(Step(s, IssueCall(0), delay), Arrive(Call(0, 0, now)), delay) == AfterFirst(now)
  {
    var s := Step(Step(Initial(now), Acquire(now), delay), NewOperation(0), delay);
    assert s.holders == map[0 := Holder(Slot(Some(0), None, None), None, None)];
    var t := Step(s, Attempt(0), delay);
    assert t.holders == map[0 := Holder(Slot(Some(0), Some(now), None), Some(now), None)];
    assert t.stored == Slot(Some(0), Some(now), None) && t.firsts == map[0 := now];
    var u := Step(t, IssueCall(0), delay);
    assert u.holders == map[0 := Holder(Slot(Some(0), Some(now), None), None, None)] && u.calls == {Call(0, 0, now)};
    var v := Step(u, Arrive(Call(0, 0, now)), delay);
    assert v.created == [Creation(0, now)] && v.remembered == map[0 := 0];
    assert v.holders == AfterFirst(now).holders;
  }

  lemma SecondCreates(now: int, delay: nat)
    requires delay >= HOUR_MS
    ensures var s := Step(Step(AfterFirst(now), Tick(now + RETRY_WINDOW_MS), delay), Acquire(now + RETRY_WINDOW_MS), delay);
            var t := Step(Step(Step(s, Attempt(1), delay), IssueCall(1), delay), Tick(now + KEY_RETENTION_MS), delay);
            Step(Step(t, Forget(0), delay), Arrive(Call(1, 0, now + RETRY_WINDOW_MS)), delay).created ==
              [Creation(0, now), Creation(0, now + KEY_RETENTION_MS)]
  {
    var at := now + RETRY_WINDOW_MS;
    var s := Step(Step(AfterFirst(now), Tick(at), delay), Acquire(at), delay);
    assert s.now == at && s.tokens == 2 && s.holders[1] == Holder(Slot(Some(0), Some(now), None), None, None);
    var t := Step(s, Attempt(1), delay);
    assert t.holders[1].checked == Some(at) && t.created == [Creation(0, now)] && t.remembered == map[0 := 0];
    var u := Step(t, IssueCall(1), delay);
    assert Call(1, 0, at) in u.calls && u.now == at;
    var v := Step(Step(u, Tick(now + KEY_RETENTION_MS), delay), Forget(0), delay);
    assert v.remembered == map[] && v.created == [Creation(0, now)] && Call(1, 0, at) in v.calls && v.now == now + KEY_RETENTION_MS;
  }

  lemma SlowCreatesTwice(now: int, delay: nat)
    requires delay >= HOUR_MS
    ensures !AtMostOnce(Run(Slow(now), now, delay))
  {
    hide Run, Step;
    var at := now + RETRY_WINDOW_MS;
    var t0: seq<Action> := [];
    var t1 := t0 + [Acquire(now)];
    var t2 := t1 + [NewOperation(0)];
    var t3 := t2 + [Attempt(0)];
    var t4 := t3 + [IssueCall(0)];
    var t5 := t4 + [Arrive(Call(0, 0, now))];
    var t6 := t5 + [Tick(at)];
    var t7 := t6 + [Acquire(at)];
    var t8 := t7 + [Attempt(1)];
    var t9 := t8 + [IssueCall(1)];
    var t10 := t9 + [Tick(now + KEY_RETENTION_MS)];
    var t11 := t10 + [Forget(0)];
    RunStarts(now, delay);
    RunOneMore(t0, Acquire(now), now, delay);
    RunOneMore(t1, NewOperation(0), now, delay);
    RunOneMore(t2, Attempt(0), now, delay);
    RunOneMore(t3, IssueCall(0), now, delay);
    RunOneMore(t4, Arrive(Call(0, 0, now)), now, delay);
    RunOneMore(t5, Tick(at), now, delay);
    RunOneMore(t6, Acquire(at), now, delay);
    RunOneMore(t7, Attempt(1), now, delay);
    RunOneMore(t8, IssueCall(1), now, delay);
    RunOneMore(t9, Tick(now + KEY_RETENTION_MS), now, delay);
    RunOneMore(t10, Forget(0), now, delay);
    RunOneMore(t11, Arrive(Call(1, 0, at)), now, delay);
    FirstCreates(now, delay);
    SecondCreates(now, delay);
    assert Slow(now) == t11 + [Arrive(Call(1, 0, at))];
    var created := Run(Slow(now), now, delay).created;
    assert created[0].key == created[1].key;
  }

  lemma RunStarts(now: int, delay: nat)
    ensures Run([], now, delay) == Initial(now)
  {
  }

  /**
    Over all crashes, takeovers, repeated calls and forgotten keys, each key creates at most one
    resource, exactly when pause and call latency together stay below one hour.
  */
  lemma AtMostOneResourcePerKey(delay: nat)
    ensures (forall trace, now :: AtMostOnce(Run(trace, now, delay))) <==> delay < HOUR_MS
  {
    hide Run, AtMostOnce;
    if delay < HOUR_MS {
      forall trace, now ensures AtMostOnce(Run(trace, now, delay)) { RunOnce(trace, now, delay); }
    } else {
      SlowCreatesTwice(0, delay);
    }
  }

  /** What the document says was created is the one resource of its key. */
  lemma StoredResourceIsTheOne(trace: seq<Action>, now: int, delay: nat, i: nat)
    requires delay < HOUR_MS
    requires var s := Run(trace, now, delay); s.stored.resource.Some? && i < |s.created| && Some(s.created[i].key) == s.stored.key
    ensures Run(trace, now, delay).stored.resource == Some(i)
  {
    hide Run;
    RunKeepsInv(trace, now, delay);
    RunOnce(trace, now, delay);
  }

  // ----- What a holder achieves -----

  /** Once its owner has persisted a resource, the document keeps it until the next operation or persist. */
  lemma {:induction false} PersistedStays(trace: seq<Action>, more: seq<Action>, now: int, delay: nat, token: nat, resource: nat)
    requires var s := Run(trace, now, delay);
             s.lease == Some(token) && token in s.holders && s.holders[token].response == Some(resource)
    requires forall i :: 0 <= i < |more| ==> !more[i].NewOperation? && !more[i].Persist?
    ensures var s, t := Run(trace, now, delay), Run(trace + [Persist(token)] + more, now, delay);
            t.stored.resource == Some(resource) && t.stored.key == s.stored.key
  {
    hide Step;
    var persisted := trace + [Persist(token)];
    if more == [] {
      assert persisted + more == persisted && persisted[..|trace|] == trace;
      PersistTakes(Run(trace, now, delay), token, resource, delay);
    } else {
      var last := |more| - 1;
      PersistedStays(trace, more[..last], now, delay, token, resource);
      assert (persisted + more)[..|persisted + more| - 1] == persisted + more[..last];
      OthersKeepResource(Run(persisted + more[..last], now, delay), more[last], delay);
    }
  }

  lemma PersistTakes(s: State, token: nat, resource: nat, delay: nat)
    requires s.lease == Some(token) && token in s.holders && s.holders[token].response == Some(resource)
    ensures var t := Step(s, Persist(token), delay); t.stored == s.stored.(resource := Some(resource)) && t.created == s.created
  {
  }

  lemma OthersKeepResource(s: State, action: Action, delay: nat)
    requires !action.NewOperation? && !action.Persist?
    ensures var t := Step(s, action, delay); t.stored.resource == s.stored.resource && t.stored.key == s.stored.key
  {
  }

  /** For five minutes from its clock reading, a lease stays with its holder unless the holder releases it. */
  lemma {:induction false} LeaseLasts(trace: seq<Action>, more: seq<Action>, now: int, delay: nat, at: int)
    requires var s := Run(trace, now, delay); at <= s.now && (s.lease.None? || s.leaseUntil <= at)
    requires forall i :: 0 <= i < |more| ==>
               && more[i] != Release(Run(trace, now, delay).tokens)
               && (more[i].Acquire? ==> more[i].at < at + 5 * 60_000)
    ensures var s, t := Run(trace, now, delay), Run(trace + [Acquire(at)] + more, now, delay);
            t.lease == Some(s.tokens) && t.leaseUntil == at + 5 * 60_000
  {
    hide Step;
    var acquired := trace + [Acquire(at)];
    if more == [] {
      assert acquired + more == acquired && acquired[..|trace|] == trace;
      AcquireTakes(Run(trace, now, delay), at, delay);
    } else {
      var last := |more| - 1;
      LeaseLasts(trace, more[..last], now, delay, at);
      assert (acquired + more)[..|acquired + more| - 1] == acquired + more[..last];
      LeaseStays(Run(acquired + more[..last], now, delay), more[last], delay);
    }
  }

  lemma AcquireTakes(s: State, at: int, delay: nat)
    requires at <= s.now && (s.lease.None? || s.leaseUntil <= at)
    ensures var t := Step(s, Acquire(at), delay);
            && t.lease == Some(s.tokens) && t.leaseUntil == at + 5 * 60_000 && t.stored == s.stored
            && s.tokens in t.holders && t.holders[s.tokens] == Holder(s.stored, None, None)
  {
  }

  lemma LeaseStays(s: State, action: Action, delay: nat)
    requires s.lease.Some? && action != Release(s.lease.value) && (action.Acquire? ==> action.at < s.leaseUntil)
    ensures Step(s, action, delay).lease == s.lease && Step(s, action, delay).leaseUntil == s.leaseUntil
  {
  }

  /** Whoever does not own the lease can neither begin an operation nor persist anything. */
  lemma OnlyOwnerWrites(s: State, token: nat, delay: nat)
    requires s.lease != Some(token)
    ensures Step(s, NewOperation(token), delay) == s && Step(s, Persist(token), delay) == s
    ensures Step(s, Attempt(token), delay).stored == s.stored && Step(s, Release(token), delay) == s
  {
  }

  /** Undisturbed, a new operation creates one resource under a new key and records it. */
  lemma CreationSucceeds(s: State, delay: nat)
    requires Inv(s) && s.lease.None?
    ensures var token, key := s.tokens, s.keys;
            var a := Step(Step(Step(s, Acquire(s.now), delay), NewOperation(token), delay), Attempt(token), delay);
            var b := Step(Step(a, IssueCall(token), delay), Arrive(Call(token, key, s.now)), delay);
            var c := Step(Step(b, Persist(token), delay), Release(token), delay);
            && c.stored == Slot(Some(key), Some(s.now), Some(|s.created|)) && c.created == s.created + [Creation(key, s.now)]
            && c.lease.None? && c.tokens == s.tokens + 1 && c.keys == s.keys + 1 && c.firsts == s.firsts[key := s.now]
            && c.remembered == s.remembered[key := |s.created|] && key !in s.remembered && c.flagged == s.flagged
  {
    hide Step, Inv;
    NewKeyIsUnknown(s);
    CreationBegins(s, delay);
    CreationEnds(Begun(s), s.tokens, s.keys, delay);
  }

  lemma NewKeyIsUnknown(s: State)
    requires Inv(s)
    ensures s.keys !in s.remembered
  {
    forall key | key in s.remembered ensures key < s.keys {
      assert CreationOk(s, s.remembered[key]);
    }
  }

  /** The state in which a new operation's first attempt is on record. */
  function Begun(s: State): State {
    var slot := Slot(Some(s.keys), Some(s.now), None);
    s.(stored := slot, lease := Some(s.tokens), leaseUntil := s.now + LEASE_MS, tokens := s.tokens + 1, keys := s.keys + 1,
       firsts := s.firsts[s.keys := s.now], holders := s.holders[s.tokens := Holder(slot, Some(s.now), None)])
  }

  lemma CreationBegins(s: State, delay: nat)
    requires s.lease.None?
    ensures Step(Step(Step(s, Acquire(s.now), delay), NewOperation(s.tokens), delay), Attempt(s.tokens), delay) == Begun(s)
  {
    var a := Step(Step(s, Acquire(s.now), delay), NewOperation(s.tokens), delay);
    var none := Holder(s.stored, None, None);
    assert a.holders == s.holders[s.tokens := none][s.tokens := Holder(Slot(Some(s.keys), None, None), None, None)];
  }

  lemma CreationEnds(s: State, token: nat, key: nat, delay: nat)
    requires token in s.holders && s.lease == Some(token) && key !in s.remembered
    requires s.holders[token] == Holder(Slot(Some(key), Some(s.now), None), Some(s.now), None) && s.stored == s.holders[token].slot
    ensures var b := Step(Step(s, IssueCall(token), delay), Arrive(Call(token, key, s.now)), delay);
            var c := Step(Step(b, Persist(token), delay), Release(token), delay);
            && c.stored == Slot(Some(key), Some(s.now), Some(|s.created|)) && c.created == s.created + [Creation(key, s.now)]
            && c.lease.None? && c.tokens == s.tokens && c.keys == s.keys && c.firsts == s.firsts
            && c.remembered == s.remembered[key := |s.created|] && c.flagged == s.flagged
  {
  }

  /** Undisturbed, a retry within the window finds the resource of the earlier attempt and records it; none is created. */
  lemma RetrySucceeds(s: State, delay: nat)
    requires Inv(s) && s.lease.None? && s.stored.key.Some? && s.stored.first.Some? && s.stored.key.value in s.remembered
    requires s.now <= s.stored.first.value + 23 * HOUR_MS
    ensures var token, key := s.tokens, s.stored.key.value;
            var a := Step(Step(s, Acquire(s.now), delay), Attempt(token), delay);
            var b := Step(Step(a, IssueCall(token), delay), Arrive(Call(token, key, s.now)), delay);
            var c := Step(b, Persist(token), delay);
            c.stored == s.stored.(resource := Some(s.remembered[key])) && c.created == s.created && c.lease == Some(token)
  {
    hide Inv;
    var a := Step(s, Acquire(s.now), delay);
    assert a.holders[s.tokens] == Holder(s.stored, None, None) && a.lease == Some(s.tokens);
  }

  /** After the window, a holder gets no permission to call; its owner records that reconciliation is required. */
  lemma LateRetryIsRefused(s: State, token: nat, delay: nat)
    requires token in s.holders && s.holders[token].slot.key.Some? && s.holders[token].slot.first.Some?
    requires s.now > s.holders[token].slot.first.value + 23 * HOUR_MS
    ensures Step(s, Attempt(token), delay) == s.(flagged := s.flagged || s.lease == Some(token))
  {
  }

  // ----- The document itself -----

  /** The subscription document, updated in place; `s` is the run's state it belongs to. */
  class Document {
    var stored: Slot
    var lease: Option<nat>
    var leaseUntil: int
    var flagged: bool

    constructor ()
      ensures stored == Slot(None, None, None) && lease == None && !flagged
    {
      stored, lease, leaseUntil, flagged := Slot(None, None, None), None, 0, false;
    }

    ghost predicate In(s: State)
      reads this
    {
      stored == s.stored && lease == s.lease && flagged == s.flagged && (lease.Some? ==> leaseUntil == s.leaseUntil)
    }

    method Acquire(ghost s: State, token: nat, at: int) returns (holder: Option<Holder>)
      requires In(s) && token == s.tokens && at <= s.now
      modifies this
      ensures In(Acquired(s, at))
      ensures holder.Some? ==> token in Acquired(s, at).holders && Acquired(s, at).holders[token] == holder.value
      ensures holder.None? ==> Acquired(s, at) == s
      ensures holder.Some? <==> old(lease.None? || leaseUntil <= at)
      ensures stored == old(stored) && flagged == old(flagged) && (holder.None? ==> lease == old(lease) && leaseUntil == old(leaseUntil))
      ensures holder.Some? ==> holder.value == Holder(stored, None, None) && lease == Some(token) && leaseUntil == at + LEASE_MS
    {
      if lease.Some? && leaseUntil > at { return None; }
      lease, leaseUntil := Some(token), at + LEASE_MS;
      return Some(Holder(stored, None, None));
    }

    method Release(ghost s: State, token: nat)
      requires In(s)
      modifies this
      ensures In(if s.lease == Some(token) then s.(lease := None) else s)
      ensures lease == (if old(lease) == Some(token) then None else old(lease)) && stored == old(stored) && flagged == old(flagged)
    {
      if lease == Some(token) { lease := None; }
    }

    method NewOperation(ghost s: State, token: nat, key: nat) returns (holder: Option<Holder>)
      requires In(s) && key == s.keys && token in s.holders
      modifies this
      ensures In(Operated(s, token))
      ensures holder.Some? ==> Operated(s, token).holders[token] == holder.value
      ensures holder.None? ==> Operated(s, token) == s
      ensures holder.Some? <==> old(lease) == Some(token)
      ensures stored == if holder.Some? then Slot(Some(key), None, None) else old(stored)
      ensures holder.Some? ==> holder.value == Holder(stored, None, None)
      ensures lease == old(lease) && leaseUntil == old(leaseUntil) && flagged == old(flagged)
    {
      if lease != Some(token) { return None; }
      stored := Slot(Some(key), None, None);
      return Some(Holder(stored, None, None));
    }

    /** A refusal changes nothing but the flag; permission comes with the first attempt's time on record. */
    method Attempt(ghost s: State, token: nat, holder: Holder, now: int) returns (allowed: Option<Holder>)
      requires In(s) && token in s.holders && s.holders[token] == holder && now == s.now && Inv(s)
      modifies this
      ensures In(Attempted(s, token))
      ensures allowed.Some? ==>
        && Attempted(s, token).holders[token] == allowed.value && allowed.value.checked == Some(now)
        && allowed.value.slot.first.Some? && now - allowed.value.slot.first.value <= RETRY_WINDOW_MS
        && (lease == Some(token) ==> stored.first == allowed.value.slot.first)
      ensures allowed.None? ==> Attempted(s, token) == s.(flagged := flagged)
      ensures var slot := holder.slot;
              && (allowed.Some? <==> slot.key.Some? && (if slot.first.Some? then now <= slot.first.value + 23 * HOUR_MS
                                                         else old(lease) == Some(token)))
              && (allowed.Some? ==> allowed.value == holder.(checked := Some(now), slot := slot.(first := allowed.value.slot.first)) &&
                                    allowed.value.slot.first == if slot.first.Some? then slot.first else Some(now))
              && stored == (if allowed.Some? && slot.first.None? then old(stored).(first := Some(now)) else old(stored))
              && lease == old(lease) && leaseUntil == old(leaseUntil)
              && (flagged <==> old(flagged) || (allowed.None? && slot.key.Some? && slot.first.Some? && old(lease) == Some(token)))
    {
      HolderOf(s, token);
      hide HoldersOk, ProviderOk;
      if holder.slot.key.None? { return None; }
      var slot := holder.slot;
      if slot.first.Some? && now - slot.first.value > RETRY_WINDOW_MS {
        if lease == Some(token) { flagged := true; }
        return None;
      }
      if slot.first.None? {
        if lease != Some(token) { return None; }
        stored := stored.(first := Some(now));
        slot := slot.(first := Some(now));
      }
      return Some(holder.(slot := slot, checked := Some(now)));
    }

    method Persist(ghost s: State, token: nat, holder: Holder) returns (ok: bool)
      requires In(s) && token in s.holders && s.holders[token] == holder && holder.response.Some?
      modifies this
      ensures In(Persisted(s, token)) && (ok <==> old(lease) == Some(token))
      ensures stored == if ok then old(stored).(resource := holder.response) else old(stored)
      ensures lease == old(lease) && leaseUntil == old(leaseUntil) && flagged == old(flagged)
    {
      if lease != Some(token) { return false; }
      stored := stored.(resource := holder.response);
      return true;
    }
  }
}
