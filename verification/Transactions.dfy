/**
  What each transaction of a company does, said by its effect: who is admitted and when, what an
  upload costs and where it is recorded, which payments give access, and what this adds up to over
  whole runs.
*/
module Transactions {
  import opened Wrappers
  import opened Calendar
  import opened Plans
  import opened Billing
  import opened Metering
  import opened Account
  import opened Entitlements
  import opened UsageAccounting

  // ----- Plans -----

  function PendingSeats(a: Account, at: int): set<nat> {
    set i | i in a.invitations && a.invitations[i].status == Pending && at < a.invitations[i].expiresAt
  }

  /** The catalogue: Free is for the owner alone, Basic for ten more. */
  predicate SeatsSuit(code: PlanCode, seats: int) {
    match code case Free => seats == 0 case Basic => seats <= 10 case Premium => true
  }

  predicate FilesSuit(code: PlanCode, files: int) {
    match code case Free => files <= 10 case Basic => files <= 100 case Premium => true
  }

  /** The plan and the queued plan, if there is one. */
  function Targets(a: Account): set<PlanCode> {
    {a.plan} + match a.pendingPlan case Some(code) => {code} case None => {}
  }

  predicate Suits(a: Account, code: PlanCode, at: int) {
    SeatsSuit(code, |a.members| + |PendingSeats(a, at)|) && FilesSuit(code, a.files)
  }

  lemma PlanFitsExactly(a: Account, code: PlanCode, at: int)
    ensures PlanFits(a, code, at).None? <==> Suits(a, code, at)
  {
    assert PendingSeats(a, at) == PendingAt(a.invitations, at);
  }

  lemma CapacityExactly(a: Account, additional: nat, at: int)
    ensures Capacity(a, additional, at).None? <==>
            PaymentAccess(a, at) && forall code :: code in Targets(a) ==>
              SeatsSuit(code, |a.members| + |PendingSeats(a, at)| + additional)
  {
    assert PendingSeats(a, at) == PendingAt(a.invitations, at);
    assert a.plan in Targets(a) && (a.pendingPlan.Some? ==> a.pendingPlan.value in Targets(a));
    assert forall code :: code in Targets(a) <==> code == a.plan || a.pendingPlan == Some(code);
    hide PaymentAccess, PendingAt, PendingSeats, Targets;
  }

  // ----- Seats -----

  /** A pending invitation to this address that is still good. */
  predicate Invited(a: Account, email: nat, at: int) {
    exists i :: i in a.invitations && a.invitations[i].email == email && i in PendingSeats(a, at)
  }

  /** invite: who is admitted. */
  lemma InvitesExactly(a: Account, id: nat, email: nat, at: int, open: bool)
    requires id !in a.invitations
    ensures Invite(a, id, email, at, open).Ok? <==>
            && open && PaymentAccess(a, at) && email !in a.members && !Invited(a, email, at)
            && forall code :: code in Targets(a) ==> SeatsSuit(code, |a.members| + |PendingSeats(a, at)| + 1)
  {
    CapacityExactly(a, 1, at);
    hide Capacity, PaymentAccess, Targets, SeatsSuit;
    var rest := ExpireStale(a.invitations, email, at);
    assert Invited(a, email, at) <==> exists i :: i in rest && rest[i].email == email && rest[i].status == Pending by {
      if i :| i in rest && rest[i].email == email && rest[i].status == Pending {
        assert i in PendingSeats(a, at);
      }
      if i :| i in a.invitations && a.invitations[i].email == email && i in PendingSeats(a, at) {
        assert rest[i].status == Pending;
      }
    }
  }

  /** All that invite does is to send one invitation and to mark expired ones to the same address. */
  lemma InvitationIsSent(a: Account, id: nat, email: nat, at: int, open: bool)
    requires id !in a.invitations && Invite(a, id, email, at, open).Ok?
    ensures var b := Invite(a, id, email, at, open).value;
            && b == a.(invitations := b.invitations) && b.invitations.Keys == a.invitations.Keys + {id}
            && b.invitations[id] == Invitation(email, Pending, at + 72 * 3_600_000, at)
            && PendingSeats(b, at) == PendingSeats(a, at) + {id}
            && forall i :: i in a.invitations ==>
                 b.invitations[i] ==
                 if a.invitations[i].email == email && a.invitations[i].status == Pending && i !in PendingSeats(a, at)
                 then a.invitations[i].(status := Expired) else a.invitations[i]
  {
    hide Capacity;
  }

  /** resend: a pending invitation gets 72 hours from the clock reading, at most once a minute. */
  lemma ResendsExactly(a: Account, id: nat, at: int)
    ensures var b := Resend(a, id, at);
            if id in PendingSeats(a, at) && a.invitations[id].lastSentAt + 60_000 <= at then
              && b == a.(invitations := b.invitations) && b.invitations.Keys == a.invitations.Keys
              && b.invitations[id] == Invitation(a.invitations[id].email, Pending, at + 72 * 3_600_000, at)
              && forall i :: i in a.invitations && i != id ==> b.invitations[i] == a.invitations[i]
            else b == a
  {
  }

  /** revoke: a pending invitation, expired or not, is revoked. */
  lemma RevokesExactly(a: Account, id: nat, at: int)
    ensures Revoke(a, id).Ok? <==> id in a.invitations && a.invitations[id].status == Pending
    ensures Revoke(a, id).Ok? ==>
            var b := Revoke(a, id).value;
            && b == a.(invitations := b.invitations) && b.invitations.Keys == a.invitations.Keys
            && PendingSeats(b, at) == PendingSeats(a, at) - {id}
            && forall i :: i in a.invitations ==>
                 b.invitations[i] == if i == id then a.invitations[i].(status := Revoked) else a.invitations[i]
  {
  }

  /** accept: the invitation's seat becomes a member with its address, and no seat is added. */
  lemma AcceptsExactly(a: Account, id: nat, at: int, open: bool)
    ensures Accept(a, id, at, open).Ok? <==>
            && open && PaymentAccess(a, at) && id in PendingSeats(a, at) && a.invitations[id].email !in a.members
            && forall code :: code in Targets(a) ==> SeatsSuit(code, |a.members| + |PendingSeats(a, at)|)
    ensures Accept(a, id, at, open).Ok? ==>
            var b := Accept(a, id, at, open).value;
            && b == a.(invitations := b.invitations, members := b.members) && b.invitations.Keys == a.invitations.Keys
            && a.invitations[id].email !in a.members && b.members == a.members + {a.invitations[id].email}
            && PendingSeats(b, at) == PendingSeats(a, at) - {id}
            && |b.members| + |PendingSeats(b, at)| == |a.members| + |PendingSeats(a, at)|
            && forall i :: i in a.invitations ==>
                 b.invitations[i] == if i == id then a.invitations[i].(status := Accepted) else a.invitations[i]
  {
    CapacityExactly(a, 0, at);
    hide Capacity, PaymentAccess;
  }

  /** A leaving member frees one seat, a deleted file one place; the TTL index takes no pending seat away. */
  lemma LeavingFreesSeats(a: Account, email: nat, id: nat, now: int, t: int)
    requires now <= t
    ensures var b := Step(a, DoDeleteMember(email), now); b == a.(members := b.members) && b.members == a.members - {email}
    ensures var b := Step(a, DoDeleteFile, now); b == a.(files := b.files) && b.files == if a.files == 0 then 0 else a.files - 1
    ensures var b := Step(a, DoPurge(id), now);
            && b == a.(invitations := b.invitations) && PendingSeats(b, t) == PendingSeats(a, t)
            && forall i :: i in a.invitations && (i != id || now < a.invitations[i].expiresAt) ==>
                 i in b.invitations && b.invitations[i] == a.invitations[i]
    ensures id in a.invitations && a.invitations[id].expiresAt <= now ==> id !in Step(a, DoPurge(id), now).invitations
  {
  }

  // ----- Plan changes -----

  /** A plan change without payments takes effect exactly when the workspace suits the plan and nobody else manages it. */
  lemma ChangesExactly(a: Account, code: PlanCode, at: int)
    requires !a.link.enabled
    ensures ChangePlan(a, code, at).Ok? <==> !a.link.managed && Suits(a, code, at)
    ensures ChangePlan(a, code, at).Ok? ==> ChangePlan(a, code, at).value == a.(plan := code)
  {
    PlanFitsExactly(a, code, at);
    hide PlanFits, Suits;
  }

  /** With payments, the plan stays until it is paid for: it is only queued, except that Free needs no subscription. */
  lemma RequestsExactly(a: Account, code: PlanCode, at: int)
    requires a.link.enabled
    ensures ChangePlan(a, code, at) == RequestPlan(a, code, at)
    ensures RequestPlan(a, code, at).Ok? <==>
            && Suits(a, code, at) && (!a.link.hasSubscription ==> code == Free)
            && (a.link.hasSubscription ==> code in Targets(a) + {Free} || a.pendingPlan.None?)
    ensures RequestPlan(a, code, at).Ok? ==>
            var b := RequestPlan(a, code, at).value;
            && b == a.(plan := b.plan, pendingPlan := b.pendingPlan, link := b.link)
            && (!a.link.hasSubscription ==>
                  b.plan == Free && b.pendingPlan == a.pendingPlan && b.link == a.link.(access := Unmanaged))
            && (a.link.hasSubscription ==>
                  && b.plan == a.plan && b.pendingPlan == Some(code)
                  && b.link == a.link.(confirmed := a.pendingPlan == Some(code) && code != Free && a.link.confirmed))
  {
    PlanFitsExactly(a, code, at);
    hide PlanFits, Suits;
  }

  // ----- Payments -----

  /** What the provider's report is worth: payment is being collected and the workspace suits the plan, or all has ended. */
  predicate Granted(a: Account, remote: Remote, at: int) {
    if remote.status == Ended then Suits(a, Free, at)
    else remote.status == Collecting && remote.invoice != OtherStatus && Suits(a, remote.plan, at)
  }

  /**
    applyCanonical: the reported plan is taken over, or Free when all has ended, exactly when it is
    granted; only then uploads and invitations are open, for a day, while nothing has to be reconciled.
  */
  lemma SynchronizesExactly(a: Account, remote: Remote, at: int, t: int)
    ensures var b, granted := ApplyCanonical(a, remote, at), Granted(a, remote, at);
            && b == a.(plan := b.plan, pendingPlan := b.pendingPlan, link := b.link)
            && b.plan == (if !granted then a.plan else if remote.status == Ended then Free else remote.plan)
            && (PaymentAccess(b, t) <==>
                  a.link.enabled && granted && t <= at + 24 * 3_600_000 && !remote.usageIssue && !remote.draftsHeld)
            && (b.link.access == Active <==> granted && (remote.status == Ended || remote.invoice == Paid))
            && (b.link.access == Deferred <==> granted && remote.status != Ended && remote.invoice == DraftOrNone)
            && (b.link.access == Suspended <==> !granted)
            && (b.link.issue == PlanConflict <==>
                  !granted && (remote.status == Ended || (remote.status == Collecting && remote.invoice != OtherStatus)))
  {
    PlanFitsExactly(a, Free, at);
    PlanFitsExactly(a, remote.plan, at);
    hide PlanFits, Suits;
  }

  /** The rest of what it records; a meter start is stored when Premium begins. */
  lemma SynchronizationRecords(a: Account, remote: Remote, at: int)
    ensures var b := ApplyCanonical(a, remote, at);
            && b.link == a.link.(managed := true, terminal := remote.status == Ended, syncedAt := Some(at), access := b.link.access,
                                 issue := b.link.issue, meterStartedAt := b.link.meterStartedAt, confirmed := b.link.confirmed)
            && b.pendingPlan == (if a.pendingPlan == Some(b.plan) then None else a.pendingPlan)
            && b.link.confirmed == (a.link.confirmed && a.pendingPlan != Some(b.plan))
            && b.link.meterStartedAt == (if b.plan == Premium && (a.plan != Premium || a.link.meterStartedAt.None?)
                                         then Some(remote.meterStart * 1000) else a.link.meterStartedAt)
            && (b.link.issue == ReconciliationRequired <==> (remote.usageIssue || remote.draftsHeld) && b.link.issue != PlanConflict)
            && b.link.issue != RetryRequired
  {
    hide PlanFits;
  }

  /** While a live subscription's latest invoice is neither paid nor open to payment, the plan stays and nothing is admitted. */
  lemma UnpaidIsSuspended(a: Account, remote: Remote, at: int, t: int)
    requires remote.status != Ended && (remote.status != Collecting || remote.invoice == OtherStatus)
    ensures ApplyCanonical(a, remote, at).plan == a.plan && !PaymentAccess(ApplyCanonical(a, remote, at), t)
  {
    SynchronizesExactly(a, remote, at, t);
    hide ApplyCanonical, PaymentAccess;
  }

  predicate HasAccess(a: Account) {
    a.link.access == Active || a.link.access == Deferred
  }

  /** The step at position i took over a paid report for the plan. */
  predicate PaidAt(a: Account, trace: seq<Timed>, i: nat, plan: PlanCode, synced: Option<int>)
    requires i < |trace|
  {
    && trace[i].action.DoCanonical? && Run(a, trace[..i]).link.hasSubscription
    && trace[i].action.remote.status == Collecting && trace[i].action.remote.invoice != OtherStatus
    && trace[i].action.remote.plan == plan && synced == Some(trace[i].action.at)
    && Suits(Run(a, trace[..i]), plan, trace[i].action.at)
  }

  predicate Synchronizes(a: Account, action: Action) {
    action.DoCanonical? && a.link.hasSubscription
  }

  lemma OtherStepsGiveNoAccess(a: Account, action: Action, now: int)
    requires !Synchronizes(a, action) && (HasAccess(a) ==> a.link.managed)
    ensures var b := Step(a, action, now);
            && (HasAccess(b) ==> b.link.managed && HasAccess(a))
            && (HasAccess(b) && b.plan != Free ==> a.plan == b.plan && b.link.syncedAt == a.link.syncedAt)
  {
    if action.DoUpload? {
      if action.quantity >= 1 { UploadTouches(a, action.quantity, action.when); }
    }
    hide Upload, Invite, Accept, PlanFits, Revoke, Resend;
    InviteTouches(a, action);
  }

  lemma InviteTouches(a: Account, action: Action)
    ensures action.DoInvite? ==>
              var b := OrElse(Invite(a, action.id, action.email, action.at, action.open), a); b.plan == a.plan && b.link == a.link
    ensures action.DoAccept? ==>
              var b := OrElse(Accept(a, action.id, action.at, action.open), a); b.plan == a.plan && b.link == a.link
    ensures action.DoRevoke? ==> var b := OrElse(Revoke(a, action.id), a); b.plan == a.plan && b.link == a.link
    ensures action.DoResend? ==> var b := Resend(a, action.id, action.at); b.plan == a.plan && b.link == a.link
  {
    hide Capacity;
  }

  lemma UploadTouches(a: Account, quantity: nat, at: Instant)
    ensures var b := OrElse(Upload(a, quantity, at), a); b == a.(files := b.files, periods := b.periods, outbox := b.outbox)
  {
    hide BillingPeriod, AdditionalOverage, EnqueueOverage, FilesFit;
  }

  /**
    In every run, a paid plan with payments switched on is open only if its last report, at most a
    day old, said that this very plan is being paid for.
  */
  lemma {:induction false} OpenPlansArePaid(activatedAt: Instant, enabled: bool, trace: seq<Timed>)
    ensures var a0 := Initial(activatedAt, enabled);
            var a := Run(a0, trace);
            && (HasAccess(a) ==> a.link.managed)
            && (HasAccess(a) && a.plan != Free ==> exists i :: 0 <= i < |trace| && PaidAt(a0, trace, i, a.plan, a.link.syncedAt))
    ensures var a := Run(Initial(activatedAt, enabled), trace);
            forall t :: a.link.enabled && a.plan != Free && PaymentAccess(a, t) ==>
              HasAccess(a) && a.link.syncedAt.Some? && t <= a.link.syncedAt.value + 24 * 3_600_000
  {
    hide Step, PaidAt, HasAccess, Synchronizes;
    var a0 := Initial(activatedAt, enabled);
    if trace == [] {
      NoAccessYet(activatedAt, enabled);
    } else {
      var n := |trace| - 1;
      var s, a := Run(a0, trace[..n]), Run(a0, trace);
      OpenPlansArePaid(activatedAt, enabled, trace[..n]);
      if Synchronizes(s, trace[n].action) {
        SynchronizationPays(a0, trace);
      } else {
        OtherStepsGiveNoAccess(s, trace[n].action, trace[n].now);
        if HasAccess(a) && a.plan != Free {
          var i :| 0 <= i < n && PaidAt(a0, trace[..n], i, s.plan, s.link.syncedAt);
          PaidEarlier(a0, trace, i, s.plan, s.link.syncedAt);
        }
      }
    }
    AccessSpelledOut(Run(a0, trace));
  }

  lemma AccessSpelledOut(a: Account)
    ensures forall t :: a.link.enabled && a.plan != Free && PaymentAccess(a, t) ==>
              HasAccess(a) && a.link.syncedAt.Some? && t <= a.link.syncedAt.value + 24 * 3_600_000
  {
  }

  lemma NoAccessYet(activatedAt: Instant, enabled: bool)
    ensures !HasAccess(Run(Initial(activatedAt, enabled), []))
  {
  }

  lemma PaidEarlier(a: Account, trace: seq<Timed>, i: nat, plan: PlanCode, synced: Option<int>)
    requires trace != [] && i < |trace| - 1 && PaidAt(a, trace[..|trace| - 1], i, plan, synced)
    ensures PaidAt(a, trace, i, plan, synced)
  {
    assert trace[..|trace| - 1][..i] == trace[..i];
    hide Run;
  }

  lemma SynchronizationPays(a0: Account, trace: seq<Timed>)
    requires trace != [] && Synchronizes(Run(a0, trace[..|trace| - 1]), trace[|trace| - 1].action)
    ensures var a := Run(a0, trace);
            && a.link.managed
            && (HasAccess(a) && a.plan != Free ==> PaidAt(a0, trace, |trace| - 1, a.plan, a.link.syncedAt))
  {
    var n := |trace| - 1;
    var s, remote, at := Run(a0, trace[..n]), trace[n].action.remote, trace[n].action.at;
    assert Run(a0, trace) == ApplyCanonical(s, remote, at);
    hide Run, ApplyCanonical, Suits, PaymentAccess;
    SynchronizesExactly(s, remote, at, at);
    SynchronizationRecords(s, remote, at);
  }

  /** Without payments only the plan and the deployment decide; with them, an open reconciliation or a missing report closes. */
  lemma AccessIsClosed(a: Account, t: int, now: int)
    ensures !a.link.managed ==> (PaymentAccess(a, t) <==> a.plan == Free || !a.link.enabled)
    ensures a.link.managed ==>
              && !PaymentAccess(Step(a, DoNoteIssue(ReconciliationRequired), now), t)
              && !PaymentAccess(Step(a, DoSwitch(false), now), t)
              && (a.link.syncedAt.None? ==> !PaymentAccess(a, t))
    ensures a.link.managed && PaymentAccess(a, t) ==>
              PaymentAccess(Step(a, DoNoteIssue(RetryRequired), now), t) && PaymentAccess(Step(a, DoNoteIssue(PlanConflict), now), t)
  {
  }

  // ----- Uploads -----

  /** The price of an upload: each file beyond the allowance of the plan, counting all stored files. */
  function Charge(a: Account, quantity: nat): int {
    FileByFile(Find(a.plan), a.files, a.files + quantity)
  }

  /** The counts of a period after an upload. */
  function Added(row: PeriodRow, a: Account, quantity: nat): PeriodRow {
    PeriodRow(row.uploaded + quantity, row.overageCents + Charge(a, quantity),
              row.meteredCents + if a.link.managed then Charge(a, quantity) else 0)
  }

  lemma ChargeIsOverage(a: Account, quantity: nat)
    ensures AdditionalOverage(Find(a.plan), a.files, a.files + quantity).Ok? <==>
            a.files + quantity <= MAX_SAFE_INTEGER && Charge(a, quantity) <= MAX_SAFE_INTEGER
    ensures AdditionalOverage(Find(a.plan), a.files, a.files + quantity).Ok? ==>
              AdditionalOverage(Find(a.plan), a.files, a.files + quantity).value == Charge(a, quantity)
    ensures Charge(a, quantity) % OVERAGE_UNIT == 0 && 0 <= Charge(a, quantity) <= OVERAGE_UNIT * quantity
  {
    if a.plan == Premium {
      FileByFileIsExcess(Find(a.plan), a.files, a.files + quantity);
    }
    if a.files + quantity <= MAX_SAFE_INTEGER {
      OverageChargesFileByFile(a.plan, a.files, a.files + quantity);
    }
  }

  /**
    A recorded upload adds its files and its price to the period that contains its time, the price
    once more to what is metered if payments manage the company, and changes no other period.
  */
  lemma UploadsRecord(a: Account, quantity: nat, at: Instant)
    requires Supported(a.activatedAt) && Upload(a, quantity, at).Ok?
    ensures var b, period := Upload(a, quantity, at).value, IntendedPeriod(a.activatedAt, at);
            && PaymentAccess(a, at) && a.activatedAt <= at && period.0 <= at < period.1
            && b == a.(files := b.files, periods := b.periods, outbox := b.outbox)
            && b.files == a.files + quantity && forall code :: code in Targets(a) ==> FilesSuit(code, b.files)
    ensures var b, period := Upload(a, quantity, at).value, IntendedPeriod(a.activatedAt, at);
            && b.periods.Keys == a.periods.Keys + {period.0} && b.periods[period.0] == Added(RowAt(a, period.0), a, quantity)
            && forall p :: p in a.periods && p != period.0 ==> b.periods[p] == a.periods[p]
    ensures var b, period := Upload(a, quantity, at).value, IntendedPeriod(a.activatedAt, at);
            if !a.link.managed || Charge(a, quantity) == 0 then b.outbox == a.outbox
            else
              && |b.outbox| == |a.outbox| + 1 && b.outbox[..|a.outbox|] == a.outbox
              && var row := b.outbox[|a.outbox|];
              && row.startsAt == period.0 && row.endsAt == period.1 && row.sequence == b.periods[period.0].uploaded
              && OVERAGE_UNIT * row.quantity == Charge(a, quantity)
              && row.timestamp == Timestamp(period.0, period.1, a.link.meterStartedAt, at)
  {
    hide Anniversary, PeriodMonth, BillingPeriod, MonthIndex, Timestamp, Charge;
    UploadPeriod(a, at);
    UploadHappens(a, at);
    ChargeIsOverage(a, quantity);
    var p := IntendedPeriod(a.activatedAt, at);
    assert Upload(a, quantity, at) == UploadIn(a, quantity, p.0, p.1, at);
    hide IntendedPeriod;
    RecordsIn(a, quantity, p.0, p.1, at);
  }

  /** An upload that is recorded lies in a period billingPeriod gives. */
  lemma UploadHappens(a: Account, at: Instant)
    requires Supported(a.activatedAt)
    ensures var p := BillingPeriod(Some(a.activatedAt), Some(at));
            p.Ok? && p.value.startsAt.Some? && p.value.endsAt.Some? ==>
              a.activatedAt <= at && p.value.startsAt.value <= at < p.value.endsAt.value
  {
    hide MonthStart, MonthOfDay, TimeInDay, Day, Anniversary, Boundary;
    if a.activatedAt <= at {
      UploadPeriod(a, at);
      PeriodContains(a.activatedAt, at, PeriodMonth(a.activatedAt, at));
    }
  }

  lemma RecordsIn(a: Account, quantity: nat, startsAt: int, endsAt: int, at: int)
    requires UploadIn(a, quantity, startsAt, endsAt, at).Ok? && (a.link.managed ==> a.link.enabled)
    requires AdditionalOverage(Find(a.plan), a.files, a.files + quantity).Ok? ==>
               AdditionalOverage(Find(a.plan), a.files, a.files + quantity).value == Charge(a, quantity)
    requires Charge(a, quantity) % OVERAGE_UNIT == 0
    ensures var b := UploadIn(a, quantity, startsAt, endsAt, at).value;
            && b == a.(files := b.files, periods := b.periods, outbox := b.outbox)
            && b.files == a.files + quantity && (forall code :: code in Targets(a) ==> FilesSuit(code, b.files))
            && b.periods == a.periods[startsAt := Added(RowAt(a, startsAt), a, quantity)]
            && if !a.link.managed || Charge(a, quantity) == 0 then b.outbox == a.outbox
               else b.outbox == a.outbox + [UsageRow(startsAt, endsAt, b.periods[startsAt].uploaded, Charge(a, quantity) / OVERAGE_UNIT,
                                                     Timestamp(startsAt, endsAt, a.link.meterStartedAt, at))]
  {
    hide Timestamp, Charge, AdditionalOverage, MeterEdge;
  }

  /** What a metered charge needs besides: the provider's customer and subscription, and a meter that starts within the period. */
  predicate Meterable(a: Account, quantity: nat, period: (int, int)) {
    && a.link.hasCustomer && a.link.hasSubscription && RowAt(a, period.0).uploaded + quantity <= MAX_SAFE_INTEGER
    && (a.link.meterStartedAt.Some? ==> MeterEdge(a.link.meterStartedAt.value) < MeterEdge(period.1))
  }

  /** Who may upload: the conditions are exactly these. */
  lemma UploadsExactly(a: Account, quantity: nat, at: Instant)
    requires Supported(a.activatedAt) && AccountingOk(a) && quantity >= 1
    ensures Upload(a, quantity, at).Ok? <==>
            && PaymentAccess(a, at) && a.activatedAt <= at && PeriodMonth(a.activatedAt, at) < LAST_MONTH - 1
            && (forall code :: code in Targets(a) ==> FilesSuit(code, a.files + quantity))
            && a.files + quantity <= MAX_SAFE_INTEGER && Charge(a, quantity) <= MAX_SAFE_INTEGER
            && (a.link.managed && Charge(a, quantity) > 0 ==> Meterable(a, quantity, IntendedPeriod(a.activatedAt, at)))
  {
    hide Anniversary, PeriodMonth, BillingPeriod, MonthIndex, Timestamp, Charge, AccountingOk, FilesSuit, Meterable, Targets, MeterEdge,
      UploadIn;
    UploadPeriod(a, at);
    UploadHappens(a, at);
    if a.activatedAt <= at {
      BillingPeriodExact(a.activatedAt, at);
      LaterMonth(a.activatedAt, at);
      var k := PeriodMonth(a.activatedAt, at);
      WindowsIncrease(a.activatedAt, k, k + 1);
      if PaymentAccess(a, at) { UploadsInExactly(a, quantity, k, at); }
    }
  }

  lemma LaterMonth(activatedAt: Instant, at: Instant)
    requires Supported(activatedAt) && activatedAt <= at
    ensures 1200 <= PeriodMonth(activatedAt, at)
  {
    hide MonthStart, MonthOfDay, TimeInDay, Day, Anniversary;
    NoEarlierThanAnchor(activatedAt, at);
  }

  lemma UploadsInExactly(a: Account, quantity: nat, k: int, at: int)
    requires AccountingOk(a) && quantity >= 1 && (a.link.managed ==> a.link.enabled)
    requires MeterEdge(Anniversary(a.activatedAt, k)) < MeterEdge(Anniversary(a.activatedAt, k + 1))
    ensures var period := (Anniversary(a.activatedAt, k), Anniversary(a.activatedAt, k + 1));
            UploadIn(a, quantity, period.0, period.1, at).Ok? <==>
            && (forall code :: code in Targets(a) ==> FilesSuit(code, a.files + quantity))
            && a.files + quantity <= MAX_SAFE_INTEGER && Charge(a, quantity) <= MAX_SAFE_INTEGER
            && (a.link.managed && Charge(a, quantity) > 0 ==> Meterable(a, quantity, period))
  {
    var p, e := Anniversary(a.activatedAt, k), Anniversary(a.activatedAt, k + 1);
    ChargeIsOverage(a, quantity);
    FilesSuitExactly(a, quantity);
    if Charge(a, quantity) <= MAX_SAFE_INTEGER { EnqueuesExactly(a, quantity, p, e, at); }
    hide Anniversary, Charge, AccountingOk, FilesSuit, FilesFit, Targets, AdditionalOverage, MeterEdge, EnqueueOverage,
      Meterable, UploadIn;
    UploadInSteps(a, quantity, p, e, at);
  }

  /** The checks of an upload within its period, one after the other. */
  lemma UploadInSteps(a: Account, quantity: nat, startsAt: int, endsAt: int, at: int)
    ensures var overage := AdditionalOverage(Find(a.plan), a.files, a.files + quantity);
            UploadIn(a, quantity, startsAt, endsAt, at).Ok? <==>
            && FilesFit(a.plan, a.files + quantity) && (a.pendingPlan.Some? ==> FilesFit(a.pendingPlan.value, a.files + quantity))
            && overage.Ok?
            && (a.link.managed ==>
                  EnqueueOverage(a, startsAt, endsAt, RowAt(a, startsAt).uploaded + quantity, overage.value, at).Ok?)
  {
    hide FilesFit, AdditionalOverage, EnqueueOverage;
  }

  /** A charge can be metered exactly when there is one and what it needs is there. */
  lemma EnqueuesExactly(a: Account, quantity: nat, startsAt: int, endsAt: int, at: int)
    requires AccountingOk(a) && quantity >= 1 && (a.link.managed ==> a.link.enabled) && MeterEdge(startsAt) < MeterEdge(endsAt)
    requires Charge(a, quantity) <= MAX_SAFE_INTEGER
    ensures a.link.managed ==>
              (EnqueueOverage(a, startsAt, endsAt, RowAt(a, startsAt).uploaded + quantity, Charge(a, quantity), at).Ok? <==>
               Charge(a, quantity) > 0 ==> Meterable(a, quantity, (startsAt, endsAt)))
  {
    ChargeIsOverage(a, quantity);
    SequenceIsNew(a, startsAt, quantity);
    TimestampInWindow(startsAt, endsAt, a.link.meterStartedAt, at);
    hide Timestamp, Charge, AccountingOk, AdditionalOverage, MeterEdge;
  }

  lemma FilesSuitExactly(a: Account, quantity: nat)
    ensures (forall code :: code in Targets(a) ==> FilesSuit(code, a.files + quantity)) <==>
            FilesFit(a.plan, a.files + quantity) && (a.pendingPlan.Some? ==> FilesFit(a.pendingPlan.value, a.files + quantity))
  {
    var files := a.files + quantity;
    assert a.plan in Targets(a) && (a.pendingPlan.Some? ==> a.pendingPlan.value in Targets(a));
    assert forall code :: code in Targets(a) ==> code == a.plan || a.pendingPlan == Some(code);
    assert FilesSuit(a.plan, files) <==> FilesFit(a.plan, files);
    assert a.pendingPlan.Some? ==> (FilesSuit(a.pendingPlan.value, files) <==> FilesFit(a.pendingPlan.value, files));
    hide Targets, FilesSuit, FilesFit;
  }

  lemma SequenceIsNew(a: Account, p: int, quantity: nat)
    requires AccountingOk(a) && quantity >= 1
    ensures 0 <= RowAt(a, p).uploaded
    ensures !exists row :: row in a.outbox && row.startsAt == p && row.sequence == RowAt(a, p).uploaded + quantity
  {
    hide Anniversary, PeriodMonth, MeterEdge, UnitsOf;
    forall row | row in a.outbox && row.startsAt == p ensures row.sequence < RowAt(a, p).uploaded + quantity {
      assert RowOk(a.activatedAt, a.periods, row);
    }
  }

  /** A row is stamped with the minute of its upload, or the nearest one from the period's and the meter's start to the period's end. */
  lemma TimestampIsNearest(startsAt: int, endsAt: int, meterStartedAt: Option<int>, at: int, minute: int)
    requires minute % 60 == 0 && MeterEdge(startsAt) <= minute < MeterEdge(endsAt)
    requires meterStartedAt.Some? ==> MeterEdge(meterStartedAt.value) <= minute
    ensures var stamp, now := Timestamp(startsAt, endsAt, meterStartedAt, at), at / 60_000 * 60;
            (now <= minute ==> now <= stamp <= minute) && (minute <= now ==> minute <= stamp <= now)
  {
  }

  // ----- Uploads over a run -----

  predicate Recorded(a: Account, action: Action) {
    action.DoUpload? && action.quantity >= 1 && Upload(a, action.quantity, action.when).Ok?
  }

  /** The sum of all recorded uploads of a period: their files, their prices, and their prices while payments managed the company. */
  function SumOfUploads(a0: Account, trace: seq<Timed>, startsAt: int): PeriodRow {
    if trace == [] then PeriodRow(0, 0, 0)
    else
      var n := |trace| - 1;
      var sum, a, action := SumOfUploads(a0, trace[..n], startsAt), Run(a0, trace[..n]), trace[n].action;
      if Recorded(a, action) && IntendedPeriod(a.activatedAt, action.when).0 == startsAt then Added(sum, a, action.quantity) else sum
  }

  /** In every run, what a period has recorded is the sum of its uploads, each at the price of its moment. */
  lemma {:induction false} PeriodsAreSumsOfUploads(activatedAt: Instant, enabled: bool, trace: seq<Timed>, startsAt: int)
    requires Supported(activatedAt)
    ensures RowAt(Run(Initial(activatedAt, enabled), trace), startsAt) == SumOfUploads(Initial(activatedAt, enabled), trace, startsAt)
  {
    hide Step, Upload, Supported, Anniversary, PeriodMonth, IntendedPeriod, Added;
    var a0 := Initial(activatedAt, enabled);
    if trace != [] {
      var n := |trace| - 1;
      PeriodsAreSumsOfUploads(activatedAt, enabled, trace[..n], startsAt);
      RunKeepsAccounting(activatedAt, enabled, trace[..n]);
      StepAdds(Run(a0, trace[..n]), trace[n].action, trace[n].now, startsAt);
    }
  }

  lemma StepAdds(a: Account, action: Action, now: int, startsAt: int)
    requires Supported(a.activatedAt)
    ensures RowAt(Step(a, action, now), startsAt) ==
            if Recorded(a, action) && IntendedPeriod(a.activatedAt, action.when).0 == startsAt
            then Added(RowAt(a, startsAt), a, action.quantity) else RowAt(a, startsAt)
  {
    if Recorded(a, action) {
      UploadsRecord(a, action.quantity, action.when);
      hide Upload, Anniversary, PeriodMonth, IntendedPeriod, Supported, Added, Timestamp, MeterEdge;
    } else {
      hide Upload, Anniversary, PeriodMonth, IntendedPeriod, Supported, Added;
    }
  }

  // ----- Members over a run -----

  predicate InvitesAt(a0: Account, trace: seq<Timed>, i: nat, id: nat, email: nat)
    requires i < |trace|
  {
    var action := trace[i].action;
    action.DoInvite? && action.id == id && action.email == email && Invite(Run(a0, trace[..i]), id, email, action.at, action.open).Ok?
  }

  predicate SendsAt(action: Action, id: nat, at: int) {
    (action.DoInvite? && action.id == id && action.at == at) || (action.DoResend? && action.id == id && action.at == at)
  }

  predicate AcceptsAt(a0: Account, trace: seq<Timed>, j: nat, email: nat)
    requires j < |trace|
  {
    var a, action := Run(a0, trace[..j]), trace[j].action;
    && action.DoAccept? && Accept(a, action.id, action.at, action.open).Ok?
    && action.id in a.invitations && a.invitations[action.id].email == email
  }

  /** What a step does to one invitation: nothing to its address, and only a sending moves its expiry. */
  lemma StepSends(a: Account, action: Action, now: int, id: nat)
    requires id in Step(a, action, now).invitations
    ensures var v := Step(a, action, now).invitations[id];
            && ((id in a.invitations && v.email == a.invitations[id].email) ||
                (action.DoInvite? && action.id == id && action.email == v.email &&
                 Invite(a, id, v.email, action.at, action.open).Ok?))
            && ((id in a.invitations && v.lastSentAt == a.invitations[id].lastSentAt && v.expiresAt == a.invitations[id].expiresAt) ||
                (SendsAt(action, id, v.lastSentAt) && v.expiresAt == v.lastSentAt + 72 * 3_600_000))
  {
    if action.DoUpload? && action.quantity >= 1 { UploadTouches(a, action.quantity, action.when); }
    hide Upload, Capacity, PlanFits, Settle;
  }

  /** Every stored invitation was sent to its address, and it expires 72 hours after it was last sent. */
  lemma {:induction false} InvitationsWereSent(activatedAt: Instant, enabled: bool, trace: seq<Timed>, id: nat)
    requires id in Run(Initial(activatedAt, enabled), trace).invitations
    ensures var a0 := Initial(activatedAt, enabled);
            var v := Run(a0, trace).invitations[id];
            && v.expiresAt == v.lastSentAt + 72 * 3_600_000
            && (exists i :: 0 <= i < |trace| && InvitesAt(a0, trace, i, id, v.email))
            && (exists i :: 0 <= i < |trace| && SendsAt(trace[i].action, id, v.lastSentAt))
  {
    hide Step, Invite, SendsAt;
    var a0 := Initial(activatedAt, enabled);
    if trace != [] {
      var n := |trace| - 1;
      var init, last := trace[..n], trace[n];
      StepSends(Run(a0, init), last.action, last.now, id);
      var v := Run(a0, trace).invitations[id];
      if id in Run(a0, init).invitations {
        InvitationsWereSent(activatedAt, enabled, init, id);
        if v.email == Run(a0, init).invitations[id].email {
          var i :| 0 <= i < n && InvitesAt(a0, init, i, id, v.email);
          assert init[..i] == trace[..i];
          assert InvitesAt(a0, trace, i, id, v.email);
        } else {
          assert InvitesAt(a0, trace, n, id, v.email);
        }
      } else {
        assert InvitesAt(a0, trace, n, id, v.email);
      }
    }
  }

  lemma StepJoins(a: Account, action: Action, now: int, email: nat)
    requires email in Step(a, action, now).members && email !in a.members
    ensures action.DoAccept? && Accept(a, action.id, action.at, action.open).Ok? && action.id in a.invitations
    ensures a.invitations[action.id].email == email
  {
    if action.DoUpload? && action.quantity >= 1 { UploadTouches(a, action.quantity, action.when); }
    hide Upload, Capacity, PlanFits, Settle;
  }

  /** Every member accepted an invitation that had been sent to its address before. */
  lemma {:induction false} MembersWereInvited(activatedAt: Instant, enabled: bool, trace: seq<Timed>, email: nat)
    requires email in Run(Initial(activatedAt, enabled), trace).members
    ensures var a0 := Initial(activatedAt, enabled);
            exists i, j :: 0 <= i < j < |trace| && AcceptsAt(a0, trace, j, email) && InvitesAt(a0, trace, i, trace[j].action.id, email)
  {
    hide Step, Invite, Accept;
    var a0 := Initial(activatedAt, enabled);
    if trace != [] {
      var n := |trace| - 1;
      var init, last := trace[..n], trace[n];
      if email in Run(a0, init).members {
        MembersWereInvited(activatedAt, enabled, init, email);
        var i, j :| 0 <= i < j < n && AcceptsAt(a0, init, j, email) && InvitesAt(a0, init, i, init[j].action.id, email);
        assert init[..i] == trace[..i] && init[..j] == trace[..j];
        assert AcceptsAt(a0, trace, j, email) && InvitesAt(a0, trace, i, trace[j].action.id, email);
      } else {
        StepJoins(Run(a0, init), last.action, last.now, email);
        InvitationsWereSent(activatedAt, enabled, init, last.action.id);
        var i :| 0 <= i < n && InvitesAt(a0, init, i, last.action.id, email);
        assert init[..i] == trace[..i];
        assert InvitesAt(a0, trace, i, last.action.id, email) && AcceptsAt(a0, trace, n, email);
      }
    }
  }
}
