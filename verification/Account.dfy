/**
  One company's subscription, seats, stored files, period accounting and usage outbox, and the
  transactions that change them. Every transaction is one atomic step; it either returns the new
  account or a denial that leaves the old one in place. The parameter `at` is the clock reading
  a request took, which may be older than the moment its transaction commits.
*/
module Account {
  import opened Wrappers
  import opened Calendar
  import opened Plans
  import opened Billing
  import opened Metering

  const DAY_MS := 86_400_000
  const INVITATION_TTL_MS := 72 * 3_600_000
  const RESEND_COOLDOWN_MS := 60_000

  datatype InvitationStatus = Pending | Accepted | Revoked | Expired

  datatype Invitation = Invitation(email: nat, status: InvitationStatus, expiresAt: int, lastSentAt: int)

  datatype Access = Unmanaged | Deferred | Active | Suspended

  datatype SyncIssue = NoIssue | RetryRequired | ReconciliationRequired | PlanConflict

  /**
    The payment fields of the subscription; `enabled` is the deployment's payment switch, and
    `terminal` says that the linked remote subscription has ended.
  */
  datatype Link = Link(
    enabled: bool,
    managed: bool,
    hasCustomer: bool,
    hasSubscription: bool,
    terminal: bool,
    confirmed: bool,
    access: Access,
    issue: SyncIssue,
    syncedAt: Option<int>,
    meterStartedAt: Option<int>)

  /** `meteredCents` is the part of `overageCents` that was recorded while Stripe managed the subscription. */
  datatype PeriodRow = PeriodRow(uploaded: int, overageCents: int, meteredCents: int)

  /** An outbox row; (startsAt, sequence) is the company's part of its identifier. */
  datatype UsageRow = UsageRow(startsAt: int, endsAt: int, sequence: int, quantity: int, timestamp: int)

  datatype Account = Account(
    activatedAt: Instant,
    plan: PlanCode,
    pendingPlan: Option<PlanCode>,
    members: set<nat>,
    invitations: map<nat, Invitation>,
    files: nat,
    periods: map<int, PeriodRow>,
    outbox: seq<UsageRow>,
    link: Link)

  datatype Denial =
    | BillingAttention
    | EmployeeLimit
    | FileLimit
    | EmailUnavailable
    | CompanyClosed
    | InvitationInvalid
    | NotFound
    | PlanEmployeeLimit
    | PlanFileLimit
    | PaymentIntegrationRequired
    | PaymentsDisabled
    | CheckoutRequired
    | QueuedChange
    | UsageMapping
    | MeterBoundary
    | PeriodDate
    | Accounting(error: BillingError)

  type Outcome = Result<Account, Denial>

  // ----- Seats and files -----

  function PendingAt(invitations: map<nat, Invitation>, t: int): set<nat> {
    set i | i in invitations && invitations[i].status == Pending && invitations[i].expiresAt > t
  }

  /** Members and unexpired pending invitations. */
  function Seats(a: Account, t: int): nat {
    |a.members| + |PendingAt(a.invitations, t)|
  }

  predicate SeatsFit(a: Account, code: PlanCode, t: int) {
    Find(code).maxEmployees.Some? ==> Seats(a, t) <= Find(code).maxEmployees.value
  }

  predicate FilesFit(code: PlanCode, files: int) {
    Find(code).extraFilePriceCents.None? ==> files <= Find(code).includedFiles
  }

  /** The workspace fits its plan and any queued one. */
  predicate Fits(a: Account, t: int) {
    && SeatsFit(a, a.plan, t) && FilesFit(a.plan, a.files)
    && (a.pendingPlan.Some? ==> SeatsFit(a, a.pendingPlan.value, t) && FilesFit(a.pendingPlan.value, a.files))
  }

  /** assertPaymentAccess. */
  predicate PaymentAccess(a: Account, at: int) {
    var l := a.link;
    || (a.plan == Free && !l.managed)
    || (!l.enabled && !l.managed)
    || (l.enabled && l.managed && l.issue != ReconciliationRequired && l.access in {Active, Deferred} &&
        l.syncedAt.Some? && at - l.syncedAt.value <= DAY_MS)
  }

  /** The lower maximum of the plan and the queued plan. */
  function SeatLimit(a: Account): Option<nat> {
    var plan := Find(a.plan).maxEmployees;
    var target := if a.pendingPlan.Some? then Find(a.pendingPlan.value).maxEmployees else plan;
    if plan.None? then target
    else if target.None? then plan
    else if plan.value <= target.value then plan else target
  }

  /** assertEmployeeCapacity. */
  function Capacity(a: Account, additional: nat, at: int): Option<Denial> {
    if !PaymentAccess(a, at) then Some(BillingAttention)
    else if SeatLimit(a).Some? && Seats(a, at) + additional > SeatLimit(a).value then Some(EmployeeLimit)
    else None
  }

  // ----- Invitations -----

  function ExpireStale(invitations: map<nat, Invitation>, email: nat, at: int): map<nat, Invitation> {
    map i | i in invitations ::
      var v := invitations[i];
      if v.email == email && v.status == Pending && v.expiresAt <= at then v.(status := Expired) else v
  }

  /** `open` says that the company is activated and not suspended; `id` is the new document's id. */
  function Invite(a: Account, id: nat, email: nat, at: int, open: bool): Outcome {
    var denial := Capacity(a, 1, at);
    if denial.Some? then Err(denial.value)
    else if email in a.members then Err(EmailUnavailable)
    else
      var rest := ExpireStale(a.invitations, email, at);
      if !open then Err(CompanyClosed)
      else if id in rest || exists i :: i in rest && rest[i].email == email && rest[i].status == Pending then
        Err(EmailUnavailable)
      else
        Ok(a.(invitations := rest[id := Invitation(email, Pending, at + INVITATION_TTL_MS, at)]))
  }

  predicate Resendable(a: Account, id: nat, at: int) {
    && id in a.invitations
    && a.invitations[id].status == Pending
    && a.invitations[id].expiresAt > at
    && a.invitations[id].lastSentAt <= at - RESEND_COOLDOWN_MS
  }

  /** Renews the invitation without the subscription lock and without a capacity check. */
  function Resend(a: Account, id: nat, at: int): Account {
    if Resendable(a, id, at) then
      a.(invitations := a.invitations[id := a.invitations[id].(expiresAt := at + INVITATION_TTL_MS, lastSentAt := at)])
    else a
  }

  function Revoke(a: Account, id: nat): Outcome {
    if id in a.invitations && a.invitations[id].status == Pending then
      Ok(a.(invitations := a.invitations[id := a.invitations[id].(status := Revoked)]))
    else Err(NotFound)
  }

  function Accept(a: Account, id: nat, at: int, open: bool): Outcome {
    if id !in a.invitations || a.invitations[id].status != Pending || a.invitations[id].expiresAt <= at then
      Err(InvitationInvalid)
    else if !open then Err(InvitationInvalid)
    else
      var denial := Capacity(a, 0, at);
      if denial.Some? then Err(denial.value)
      else if a.invitations[id].email in a.members then Err(EmailUnavailable)
      else
        Ok(a.(invitations := a.invitations[id := a.invitations[id].(status := Accepted)],
              members := a.members + {a.invitations[id].email}))
  }

  // ----- Plan changes -----

  /** assertPlanFits, and the same checks of SubscriptionsService.changePlan. */
  function PlanFits(a: Account, code: PlanCode, at: int): Option<Denial> {
    if !SeatsFit(a, code, at) then Some(PlanEmployeeLimit)
    else if !FilesFit(code, a.files) then Some(PlanFileLimit)
    else None
  }

  /** SubscriptionsService.changePlan: payments take over when they are enabled. */
  function ChangePlan(a: Account, code: PlanCode, at: int): Outcome {
    if a.link.enabled then RequestPlan(a, code, at)
    else if a.link.managed then Err(PaymentIntegrationRequired)
    else
      var denial := PlanFits(a, code, at);
      if denial.Some? then Err(denial.value) else Ok(a.(plan := code))
  }

  /** The local transaction of PaymentsService.changePlan. */
  function RequestPlan(a: Account, code: PlanCode, at: int): Outcome {
    if !a.link.enabled then Err(PaymentsDisabled)
    else if !a.link.hasSubscription then
      if code != Free then Err(CheckoutRequired)
      else
        var denial := PlanFits(a, code, at);
        if denial.Some? then Err(denial.value)
        else Ok(a.(plan := code, link := a.link.(access := Unmanaged)))
    else
      var denial := PlanFits(a, code, at);
      if denial.Some? then Err(denial.value)
      else if a.pendingPlan.Some? && a.pendingPlan.value != code && code != a.plan && code != Free then Err(QueuedChange)
      else if a.pendingPlan != Some(code) || (code == Free && a.link.confirmed) then
        Ok(a.(pendingPlan := Some(code), link := a.link.(confirmed := false)))
      else Ok(a)
  }

  /** Collecting: active, not paused and charged automatically. */
  datatype RemoteStatus = Collecting | NotCollecting | Ended

  datatype LatestInvoice = Paid | DraftOrNone | OtherStatus

  /** What applyCanonical reads from the provider's subscription; `meterStart` is in whole seconds. */
  datatype Remote = Remote(
    plan: PlanCode,
    status: RemoteStatus,
    invoice: LatestInvoice,
    usageIssue: bool,
    draftsHeld: bool,
    meterStart: int)

  /** The plan, access and issue applyCanonical settles on. */
  function Settle(a: Account, remote: Remote, at: int): (PlanCode, Access, SyncIssue) {
    var paid := if remote.status != Collecting then Suspended
                else match remote.invoice
                  case Paid => Active
                  case DraftOrNone => Deferred
                  case OtherStatus => Suspended;
    var noted := if remote.usageIssue || remote.draftsHeld then ReconciliationRequired else NoIssue;
    var (plan, access, issue) :=
      if remote.status == Ended then
        if PlanFits(a, Free, at).None? then (Free, Active, noted) else (a.plan, paid, PlanConflict)
      else if paid != Suspended then
        if PlanFits(a, remote.plan, at).None? then (remote.plan, paid, noted) else (a.plan, Suspended, PlanConflict)
      else (a.plan, Suspended, noted);
    (if access == Suspended then a.plan else plan, access, issue)
  }

  function ApplyCanonical(a: Account, remote: Remote, at: int): Account {
    var (settled, access, issue) := Settle(a, remote, at);
    var meterStartedAt :=
      if settled == Premium && (a.link.meterStartedAt.None? || settled != a.plan) then Some(remote.meterStart * 1000)
      else a.link.meterStartedAt;
    var reached := a.pendingPlan == Some(settled);
    a.(plan := settled,
       pendingPlan := if reached then None else a.pendingPlan,
       link := a.link.(managed := true, terminal := remote.status == Ended, access := access, issue := issue, syncedAt := Some(at),
                       meterStartedAt := meterStartedAt, confirmed := !reached && a.link.confirmed))
  }

  /** checkout: a subscription that has ended is unlinked, together with what was planned for it. */
  function ResetCheckout(a: Account): Account {
    if !a.link.enabled || !a.link.hasSubscription || !a.link.terminal then a
    else
      a.(pendingPlan := None,
         link := a.link.(hasSubscription := false, terminal := false, confirmed := false,
                         access := if a.plan == Free then a.link.access else Suspended))
  }

  /** completeCheckout links the new subscription; its meter start is still unknown. */
  function LinkSubscription(a: Account): Account {
    if !a.link.enabled || !a.link.hasCustomer || a.link.hasSubscription then a
    else a.(link := a.link.(hasSubscription := true, managed := true, meterStartedAt := None))
  }

  // ----- Uploads -----

  /** enqueueOverage: the new outbox, or the reason why the surrounding transaction aborts. */
  function EnqueueOverage(a: Account, startsAt: int, endsAt: int, sequence: int, cents: int,
          at: int): Result<seq<UsageRow>, Denial> {
    if !a.link.enabled || !a.link.managed || cents == 0 then Ok(a.outbox)
    else if !a.link.hasCustomer || !a.link.hasSubscription then Err(UsageMapping)
    else if !SafeCount(cents) || !SafeCount(sequence) || sequence < 1 then Err(UsageMapping)
    else if cents / OVERAGE_UNIT < 1 || cents / OVERAGE_UNIT * OVERAGE_UNIT != cents then Err(UsageMapping)
    else
      var timestamp := Timestamp(startsAt, endsAt, a.link.meterStartedAt, at);
      if timestamp >= MeterEdge(endsAt) then Err(MeterBoundary)
      else if exists row :: row in a.outbox && row.startsAt == startsAt && row.sequence == sequence then Err(UsageMapping)
      else Ok(a.outbox + [UsageRow(startsAt, endsAt, sequence, cents / OVERAGE_UNIT, timestamp)])
  }

  function RowAt(a: Account, startsAt: int): PeriodRow {
    if startsAt in a.periods then a.periods[startsAt] else PeriodRow(0, 0, 0)
  }

  /** recordFileUploads together with the creation of the files' metadata, in one transaction. */
  function Upload(a: Account, quantity: nat, at: Instant): Outcome {
    if !PaymentAccess(a, at) then Err(BillingAttention)
    else
      match BillingPeriod(Some(a.activatedAt), Some(at))
      case Ok(Period(Some(startsAt), Some(endsAt))) => UploadIn(a, quantity, startsAt, endsAt, at)
      case _ => Err(PeriodDate)
  }

  function UploadIn(a: Account, quantity: nat, startsAt: int, endsAt: int, at: int): Outcome {
    var target := if a.pendingPlan.Some? then a.pendingPlan.value else a.plan;
    var row := RowAt(a, startsAt);
    if !FilesFit(a.plan, a.files + quantity) || !FilesFit(target, a.files + quantity) then Err(FileLimit)
    else
      match AdditionalOverage(Find(a.plan), a.files, a.files + quantity)
      case Err(e) => Err(Accounting(e))
      case Ok(cents) =>
        match if a.link.managed then EnqueueOverage(a, startsAt, endsAt, row.uploaded + quantity, cents, at) else Ok(a.outbox)
        case Err(e) => Err(e)
        case Ok(outbox) =>
          Ok(a.(files := a.files + quantity, outbox := outbox,
                periods := a.periods[startsAt := PeriodRow(row.uploaded + quantity, row.overageCents + cents,
                                                           row.meteredCents + if a.link.managed then cents else 0)]))
  }

  // ----- Runs -----

  datatype Action =
    | DoInvite(id: nat, email: nat, at: int, open: bool)
    | DoResend(id: nat, at: int)
    | DoRevoke(id: nat)
    | DoAccept(id: nat, at: int, open: bool)
    | DoPurge(id: nat)
    | DoDeleteMember(email: nat)
    | DoUpload(quantity: nat, when: Instant)
    | DoDeleteFile
    | DoChangePlan(code: PlanCode, at: int)
    | DoRequestPlan(code: PlanCode, at: int)
    | DoCanonical(remote: Remote, at: int)
    | DoLinkCustomer
    | DoResetCheckout
    | DoLinkSubscription
    | DoConfirmPlan
    | DoNoteIssue(issue: SyncIssue)
    | DoSwitch(enabled: bool)

  function OrElse(r: Outcome, a: Account): Account {
    if r.Ok? then r.value else a
  }

  /** A denied transaction changes nothing. DoPurge is the TTL index, DoSwitch the deployment. */
  function Step(a: Account, action: Action, now: int): Account {
    match action
    case DoInvite(id, email, at, open) => OrElse(Invite(a, id, email, at, open), a)
    case DoResend(id, at) => Resend(a, id, at)
    case DoRevoke(id) => OrElse(Revoke(a, id), a)
    case DoAccept(id, at, open) => OrElse(Accept(a, id, at, open), a)
    case DoPurge(id) =>
      if id in a.invitations && a.invitations[id].expiresAt <= now then a.(invitations := a.invitations - {id}) else a
    case DoDeleteMember(email) => a.(members := a.members - {email})
    case DoUpload(quantity, when) => if quantity >= 1 then OrElse(Upload(a, quantity, when), a) else a
    case DoDeleteFile => if a.files > 0 then a.(files := a.files - 1) else a
    case DoChangePlan(code, at) => OrElse(ChangePlan(a, code, at), a)
    case DoRequestPlan(code, at) => OrElse(RequestPlan(a, code, at), a)
    case DoCanonical(remote, at) => if a.link.hasSubscription then ApplyCanonical(a, remote, at) else a
    case DoLinkCustomer => a.(link := a.link.(hasCustomer := true))
    case DoResetCheckout => ResetCheckout(a)
    case DoLinkSubscription => LinkSubscription(a)
    case DoConfirmPlan => a.(link := a.link.(confirmed := true))
    case DoNoteIssue(issue) => a.(link := a.link.(issue := issue))
    case DoSwitch(enabled) => a.(link := a.link.(enabled := enabled))
  }

  /** The clock reading an action carries, if it carries one. */
  function Reading(action: Action): Option<int> {
    match action
    case DoInvite(_, _, at, _) => Some(at)
    case DoResend(_, at) => Some(at)
    case DoAccept(_, at, _) => Some(at)
    case DoUpload(_, when) => Some(when)
    case DoChangePlan(_, at) => Some(at)
    case DoRequestPlan(_, at) => Some(at)
    case DoCanonical(_, at) => Some(at)
    case _ => None
  }

  /** Requests read the clock before they act. */
  predicate NotFromTheFuture(action: Action, now: int) {
    Reading(action).Some? ==> Reading(action).value <= now
  }

  /** initializeFree. */
  function Initial(activatedAt: Instant, enabled: bool): Account {
    Account(activatedAt, Free, None, {}, map[], 0, map[], [],
            Link(enabled, false, false, false, false, false, Unmanaged, NoIssue, None, None))
  }

  /** A run: actions with the times at which they commit. */
  datatype Timed = Timed(action: Action, now: int)

  function Run(a: Account, trace: seq<Timed>): Account {
    if trace == [] then a
    else Step(Run(a, trace[..|trace| - 1]), trace[|trace| - 1].action, trace[|trace| - 1].now)
  }

  predicate Clocked(trace: seq<Timed>, from: int) {
    && (forall i :: 0 <= i < |trace| ==> NotFromTheFuture(trace[i].action, trace[i].now) && from <= trace[i].now)
    && (forall i, j :: 0 <= i < j < |trace| ==> trace[i].now <= trace[j].now)
  }
}
