/**
  One company's documents as the services update them in place. A method is one transaction: it
  either ends with the account the function of Account describes, or throws and leaves it unchanged.
  With a clock reading that is not from the future, the workspace keeps fitting its plans.
*/
module CompanyStore {
  import opened Wrappers
  import opened Calendar
  import opened Plans
  import opened Billing
  import opened A = Account
  import opened Entitlements
  import opened UsageAccounting
  import opened Transactions

  /** The files and their price are added to the period that contains the upload, and to no other. */
  predicate AddsUpload(a: A.Account, b: A.Account, quantity: nat, at: Instant) {
    var period := IntendedPeriod(a.activatedAt, at);
    && b.files == a.files + quantity && b.periods.Keys == a.periods.Keys + {period.0}
    && b.periods[period.0] == Added(RowAt(a, period.0), a, quantity)
    && forall p :: p in a.periods && p != period.0 ==> b.periods[p] == a.periods[p]
  }

  lemma UploadStays(a: A.Account, quantity: nat, at: Instant, now: int)
    requires quantity >= 1 && at <= now
    ensures Fits(a, now) ==> Fits(OrElse(Upload(a, quantity, at), a), now)
    ensures Supported(a.activatedAt) && AccountingOk(a) ==> AccountingOk(OrElse(Upload(a, quantity, at), a))
    ensures Supported(a.activatedAt) && Upload(a, quantity, at).Ok? ==> AddsUpload(a, Upload(a, quantity, at).value, quantity, at)
  {
    hide Fits, AccountingOk, Supported, Upload, IntendedPeriod, Added;
    if Supported(a.activatedAt) && Upload(a, quantity, at).Ok? { UploadsRecord(a, quantity, at); }
    if Fits(a, now) { UploadFits(a, quantity, at, now); }
    if Supported(a.activatedAt) && AccountingOk(a) { UploadKeepsAccounting(a, quantity, at); }
  }

  lemma Opens(a: A.Account, remote: Remote, at: int)
    ensures var b, granted := A.ApplyCanonical(a, remote, at), Granted(a, remote, at);
            && b.plan == (if !granted then a.plan else if remote.status == Ended then Free else remote.plan)
            && forall t :: PaymentAccess(b, t) <==>
                 a.link.enabled && granted && t <= at + 24 * 3_600_000 && !remote.usageIssue && !remote.draftsHeld
  {
    hide A.ApplyCanonical, Granted, PaymentAccess;
    SynchronizesExactly(a, remote, at, at);
    forall t ensures PaymentAccess(A.ApplyCanonical(a, remote, at), t) <==>
                       a.link.enabled && Granted(a, remote, at) && t <= at + 24 * 3_600_000 && !remote.usageIssue && !remote.draftsHeld
    {
      SynchronizesExactly(a, remote, at, t);
    }
  }

  class Company {
    const activatedAt: Instant
    var plan: PlanCode
    var pendingPlan: Option<PlanCode>
    var members: set<nat>
    var invitations: map<nat, Invitation>
    var files: nat
    var periods: map<int, PeriodRow>
    var outbox: seq<UsageRow>
    var link: Link

    /** initializeFree. */
    constructor (activatedAt: Instant, enabled: bool)
      ensures View() == Initial(activatedAt, enabled)
      ensures forall t :: Fits(View(), t)
      ensures AccountingOk(View())
    {
      this.activatedAt, plan, pendingPlan, members, invitations := activatedAt, Free, None, {}, map[];
      files, periods, outbox := 0, map[], [];
      link := Link(enabled, false, false, false, false, false, Unmanaged, NoIssue, None, None);
      new;
      forall t ensures Fits(View(), t) { InitialFits(activatedAt, enabled, t); }
    }

    ghost function View(): A.Account
      reads this
    {
      A.Account(activatedAt, plan, pendingPlan, members, invitations, files, periods, outbox, link)
    }

    /** assertEmployeeCapacity: the lower of the two limits counts, and no limit admits everybody. */
    method AssertEmployeeCapacity(additional: nat, at: int) returns (denial: Option<Denial>)
      ensures denial == Capacity(View(), additional, at)
    {
      if !PaymentAccess(A.Account(activatedAt, plan, pendingPlan, members, invitations, files, periods, outbox, link), at) {
        return Some(BillingAttention);
      }
      var limit := Find(plan).maxEmployees;
      if pendingPlan.Some? {
        var target := Find(pendingPlan.value).maxEmployees;
        if limit.None? || (target.Some? && target.value < limit.value) { limit := target; }
      }
      if limit.None? { return None; }
      var pending := set i | i in invitations && invitations[i].status == Pending && invitations[i].expiresAt > at;
      assert pending == PendingAt(invitations, at);
      if |members| + |pending| + additional > limit.value { return Some(EmployeeLimit); }
      return None;
    }

    method Invite(id: nat, email: nat, at: int, open: bool, ghost now: int) returns (denial: Option<Denial>)
      requires at <= now
      modifies this`invitations
      ensures var next := A.Invite(old(View()), id, email, at, open);
              denial == (if next.Ok? then None else Some(next.error)) && View() == OrElse(next, old(View()))
      ensures denial.None? ==> id in invitations && invitations[id] == Invitation(email, Pending, at + 72 * 3_600_000, at)
      ensures Fits(old(View()), now) ==> Fits(View(), now)
    {
      ghost var before := View();
      if Fits(before, now) { StepFits(before, DoInvite(id, email, at, open), now); }
      hide Fits;
      denial := AssertEmployeeCapacity(1, at);
      if denial.Some? { return; }
      if email in members { return Some(EmailUnavailable); }
      var stored := invitations;
      invitations := ExpireStale(stored, email, at);
      if !open {
        invitations := stored;
        return Some(CompanyClosed);
      }
      if id in invitations || exists i :: i in invitations && invitations[i].email == email && invitations[i].status == Pending {
        invitations := stored;
        return Some(EmailUnavailable);
      }
      invitations := invitations[id := Invitation(email, Pending, at + INVITATION_TTL_MS, at)];
      return None;
    }

    /** Without the lock and without a capacity check: it keeps the limits unless it revives an expired invitation. */
    method Resend(id: nat, at: int, ghost now: int) returns (sent: bool)
      requires at <= now
      modifies this`invitations
      ensures View() == A.Resend(old(View()), id, at) && (sent <==> Resendable(old(View()), id, at))
      ensures Fits(old(View()), now) ==> (Fits(View(), now) <==> !Overbooks(old(View()), DoResend(id, at), now))
    {
      ghost var before := View();
      if Fits(before, now) { ResendFits(before, id, at, now); }
      hide Fits, Overbooks;
      if id !in invitations || invitations[id].status != Pending || invitations[id].expiresAt <= at { return false; }
      if invitations[id].lastSentAt > at - RESEND_COOLDOWN_MS { return false; }
      invitations := invitations[id := invitations[id].(expiresAt := at + INVITATION_TTL_MS, lastSentAt := at)];
      return true;
    }

    method Revoke(id: nat, ghost now: int) returns (denial: Option<Denial>)
      modifies this`invitations
      ensures var next := A.Revoke(old(View()), id);
              denial == (if next.Ok? then None else Some(next.error)) && View() == OrElse(next, old(View()))
      ensures Fits(old(View()), now) ==> Fits(View(), now)
    {
      ghost var before := View();
      if Fits(before, now) { StepFits(before, DoRevoke(id), now); }
      hide Fits;
      if id !in invitations || invitations[id].status != Pending { return Some(NotFound); }
      invitations := invitations[id := invitations[id].(status := Revoked)];
      return None;
    }

    method Accept(id: nat, at: int, open: bool, ghost now: int) returns (denial: Option<Denial>)
      requires at <= now
      modifies this`invitations, this`members
      ensures var next := A.Accept(old(View()), id, at, open);
              denial == (if next.Ok? then None else Some(next.error)) && View() == OrElse(next, old(View()))
      ensures denial.None? ==>
                && id in old(invitations) && old(invitations)[id].status == Pending && at < old(invitations)[id].expiresAt
                && old(invitations)[id].email !in old(members) && members == old(members) + {old(invitations)[id].email}
                && invitations == old(invitations)[id := old(invitations)[id].(status := Accepted)]
      ensures Fits(old(View()), now) ==> Fits(View(), now)
    {
      ghost var before := View();
      if Fits(before, now) { StepFits(before, DoAccept(id, at, open), now); }
      hide Fits;
      if id !in invitations || invitations[id].status != Pending || invitations[id].expiresAt <= at { return Some(InvitationInvalid); }
      if !open { return Some(InvitationInvalid); }
      denial := AssertEmployeeCapacity(0, at);
      if denial.Some? { return; }
      var email := invitations[id].email;
      if email in members { return Some(EmailUnavailable); }
      invitations := invitations[id := invitations[id].(status := Accepted)];
      members := members + {email};
      return None;
    }

    /** recordFileUploadsInTransaction and the metadata of the files, with the outbox row of a charge. */
    method RecordFileUploads(quantity: nat, at: Instant, ghost now: int) returns (denial: Option<Denial>)
      requires quantity >= 1 && at <= now
      modifies this`files, this`periods, this`outbox
      ensures var next := Upload(old(View()), quantity, at);
              denial == (if next.Ok? then None else Some(next.error)) && View() == OrElse(next, old(View()))
      ensures Fits(old(View()), now) ==> Fits(View(), now)
      ensures Supported(activatedAt) && AccountingOk(old(View())) ==> AccountingOk(View())
      ensures Supported(activatedAt) && denial.None? ==> AddsUpload(old(View()), View(), quantity, at)
    {
      ghost var before := View();
      hide Fits, AccountingOk, Supported, BillingPeriod, UploadIn, AddsUpload;
      UploadStays(before, quantity, at, now);
      if !PaymentAccess(A.Account(activatedAt, plan, pendingPlan, members, invitations, files, periods, outbox, link), at) {
        return Some(BillingAttention);
      }
      var period := BillingPeriod(Some(activatedAt), Some(at));
      if !(period.Ok? && period.value.startsAt.Some? && period.value.endsAt.Some?) { return Some(PeriodDate); }
      denial := RecordInPeriod(quantity, period.value.startsAt.value, period.value.endsAt.value, at);
    }

    method RecordInPeriod(quantity: nat, startsAt: int, endsAt: int, at: int) returns (denial: Option<Denial>)
      modifies this`files, this`periods, this`outbox
      ensures var next := UploadIn(old(View()), quantity, startsAt, endsAt, at);
              denial == (if next.Ok? then None else Some(next.error)) && View() == OrElse(next, old(View()))
    {
      hide AdditionalOverage, EnqueueOverage;
      var target := if pendingPlan.Some? then pendingPlan.value else plan;
      var row := if startsAt in periods then periods[startsAt] else PeriodRow(0, 0, 0);
      if !FilesFit(plan, files + quantity) || !FilesFit(target, files + quantity) { return Some(FileLimit); }
      var overage := AdditionalOverage(Find(plan), files, files + quantity);
      if overage.Err? { return Some(Accounting(overage.error)); }
      var cents := overage.value;
      if link.managed {
        var account := A.Account(activatedAt, plan, pendingPlan, members, invitations, files, periods, outbox, link);
        var rows := EnqueueOverage(account, startsAt, endsAt, row.uploaded + quantity, cents, at);
        if rows.Err? { return Some(rows.error); }
        outbox := rows.value;
      }
      files := files + quantity;
      periods := periods[startsAt := PeriodRow(row.uploaded + quantity, row.overageCents + cents,
                                               row.meteredCents + if link.managed then cents else 0)];
      return None;
    }

    /** SubscriptionsService.changePlan: payments take over when they are enabled. */
    method ChangePlan(code: PlanCode, at: int, ghost now: int) returns (denial: Option<Denial>)
      requires at <= now
      modifies this`plan, this`pendingPlan, this`link
      ensures var next := A.ChangePlan(old(View()), code, at);
              denial == (if next.Ok? then None else Some(next.error)) && View() == OrElse(next, old(View()))
      ensures Fits(old(View()), now) ==> Fits(View(), now)
    {
      ghost var before := View();
      hide Fits;
      if Fits(before, now) { ChangePlanFits(before, code, at, now); }
      if link.enabled {
        denial := RequestPlan(code, at, now);
        return;
      }
      if link.managed { return Some(PaymentIntegrationRequired); }
      denial := AssertPlanFits(code, at);
      if denial.Some? { return; }
      plan := code;
    }

    method AssertPlanFits(code: PlanCode, at: int) returns (denial: Option<Denial>)
      ensures denial == PlanFits(View(), code, at)
    {
      var pending := set i | i in invitations && invitations[i].status == Pending && invitations[i].expiresAt > at;
      assert pending == PendingAt(invitations, at);
      var target := Find(code);
      if target.maxEmployees.Some? && |members| + |pending| > target.maxEmployees.value { return Some(PlanEmployeeLimit); }
      if target.extraFilePriceCents.None? && files > target.includedFiles { return Some(PlanFileLimit); }
      return None;
    }

    /** The local transaction of PaymentsService.changePlan. */
    method RequestPlan(code: PlanCode, at: int, ghost now: int) returns (denial: Option<Denial>)
      requires at <= now
      modifies this`plan, this`pendingPlan, this`link
      ensures var next := A.RequestPlan(old(View()), code, at);
              denial == (if next.Ok? then None else Some(next.error)) && View() == OrElse(next, old(View()))
      ensures Fits(old(View()), now) ==> Fits(View(), now)
    {
      ghost var before := View();
      hide Fits, PlanFits;
      if Fits(before, now) { RequestPlanFits(before, code, at, now); }
      if !link.enabled { return Some(PaymentsDisabled); }
      if !link.hasSubscription {
        if code != Free { return Some(CheckoutRequired); }
        denial := AssertPlanFits(code, at);
        if denial.Some? { return; }
        plan, link := code, link.(access := Unmanaged);
        return;
      }
      denial := AssertPlanFits(code, at);
      if denial.Some? { return; }
      if pendingPlan.Some? && pendingPlan.value != code && code != plan && code != Free { return Some(QueuedChange); }
      if pendingPlan != Some(code) || (code == Free && link.confirmed) {
        pendingPlan, link := Some(code), link.(confirmed := false);
      }
    }

    /** The provider's plan is taken over only when it is paid for and fits. */
    method SettlePlan(remote: Remote, at: int) returns (code: PlanCode, access: Access, issue: SyncIssue)
      ensures (code, access, issue) == Settle(View(), remote, at)
      ensures code != plan ==> access != Suspended && PlanFits(View(), code, at).None?
      ensures remote.status != Ended ==>
                && (access != Suspended <==>
                      remote.status == Collecting && remote.invoice != OtherStatus && PlanFits(View(), remote.plan, at).None?)
                && (access == Active <==> access != Suspended && remote.invoice == Paid)
                && code == if access != Suspended then remote.plan else plan
      ensures remote.status == Ended ==>
                if PlanFits(View(), Free, at).None? then code == Free && access == Active
                else code == plan && access == Suspended && issue == PlanConflict
    {
      hide PlanFits;
      code, access := remote.plan, Suspended;
      issue := if remote.usageIssue || remote.draftsHeld then ReconciliationRequired else NoIssue;
      if remote.status == Collecting {
        access := if remote.invoice == Paid then Active else if remote.invoice == DraftOrNone then Deferred else Suspended;
      }
      if remote.status == Ended {
        var misfit := AssertPlanFits(Free, at);
        if misfit.None? {
          code, access := Free, Active;
        } else {
          code, issue := plan, PlanConflict;
        }
      } else if access != Suspended {
        var misfit := AssertPlanFits(code, at);
        if misfit.Some? {
          code, access, issue := plan, Suspended, PlanConflict;
        }
      }
      if access == Suspended { code := plan; }
    }

    /** The transaction of applyCanonical. */
    method ApplyCanonical(remote: Remote, at: int, ghost now: int)
      requires at <= now
      modifies this`plan, this`pendingPlan, this`link
      ensures View() == A.ApplyCanonical(old(View()), remote, at)
      ensures plan == if !Granted(old(View()), remote, at) then old(plan) else if remote.status == Ended then Free else remote.plan
      ensures forall t :: PaymentAccess(View(), t) <==>
                old(link.enabled) && Granted(old(View()), remote, at) && t <= at + 24 * 3_600_000 &&
                !remote.usageIssue && !remote.draftsHeld
      ensures Fits(old(View()), now) ==> Fits(View(), now)
    {
      hide Fits, Settle, Granted, PaymentAccess;
      if Fits(View(), now) { CanonicalFits(View(), remote, at, now); }
      Opens(View(), remote, at);
      var code, access, issue := SettlePlan(remote, at);
      var changed, reached := code != plan, pendingPlan == Some(code);
      var started := link.meterStartedAt;
      if code == Premium && (started.None? || changed) { started := Some(remote.meterStart * 1000); }
      if reached { pendingPlan := None; }
      link := link.(managed := true, terminal := remote.status == Ended, access := access, issue := issue,
                    syncedAt := Some(at), meterStartedAt := started, confirmed := !reached && link.confirmed);
      plan := code;
    }

    /** checkout, for a linked subscription that has ended. */
    method ResetCheckout()
      modifies this`pendingPlan, this`link
      ensures View() == A.ResetCheckout(old(View()))
      ensures old(link.enabled && link.hasSubscription && link.terminal) ==>
                && plan == old(plan) && !link.hasSubscription && !link.terminal && pendingPlan.None?
                && forall at :: plan != Free ==> !PaymentAccess(View(), at)
      ensures forall now :: Fits(old(View()), now) ==> Fits(View(), now)
    {
      if !link.enabled || !link.hasSubscription || !link.terminal { return; }
      if plan != Free { link := link.(access := Suspended); }
      link := link.(hasSubscription := false, terminal := false, confirmed := false);
      pendingPlan := None;
    }

    /** The update of completeCheckout that links the new subscription. */
    method LinkSubscription()
      modifies this`link
      ensures View() == A.LinkSubscription(old(View()))
      ensures link.hasSubscription <==> old(link.hasSubscription || (link.enabled && link.hasCustomer))
      ensures link.hasSubscription && !old(link.hasSubscription) ==> forall remote, at ::
                var b := A.ApplyCanonical(View(), remote, at);
                b.plan == Premium ==> b.link.meterStartedAt == Some(remote.meterStart * 1000)
    {
      if !link.enabled || !link.hasCustomer || link.hasSubscription { return; }
      link := link.(hasSubscription := true, managed := true, meterStartedAt := None);
    }
  }
}
