/** The plan catalogue (src/plans/plan.constants.ts). */
module Plans {
  import opened Wrappers

  datatype PlanCode = Free | Basic | Premium

  /** A missing maximum is unlimited; a missing extra-file price means that the allowance is a hard limit. */
  datatype Plan = Plan(
    includedFiles: nat,
    maxEmployees: Option<nat>,
    basePriceCents: nat,
    employeePriceCents: nat,
    extraFilePriceCents: Option<nat>)

  function Find(code: PlanCode): Plan {
    match code
    case Free => Plan(10, Some(0), 0, 0, None)
    case Basic => Plan(100, Some(10), 0, 500, None)
    case Premium => Plan(1000, None, 30_000, 0, Some(50))
  }

  /** The price of one file beyond the Premium allowance. */
  const OVERAGE_UNIT := 50
}

/** Overage arithmetic and the computed bill (src/subscriptions/billing.service.ts). */
module Billing {
  import opened Wrappers
  import opened Plans

  const MAX_SAFE_INTEGER := 9_007_199_254_740_991

  datatype BillingError = InvalidAccounting | UnsafeRange

  datatype Bill = Bill(employeeChargeCents: int, billableOverageUploads: int, totalAmountCents: int)

  predicate SafeCount(value: int) {
    0 <= value <= MAX_SAFE_INTEGER
  }

  function SafeNumber(value: int): Result<int, BillingError> {
    if value > MAX_SAFE_INTEGER then Err(UnsafeRange) else Ok(value)
  }

  function Excess(plan: Plan, files: int): int {
    if files > plan.includedFiles then files - plan.includedFiles else 0
  }

  /** calculateAdditionalOverageCents: the charge for growing from `stored` to `resulting` files. */
  function AdditionalOverage(plan: Plan, stored: int, resulting: int): Result<int, BillingError> {
    if !SafeCount(stored) || !SafeCount(resulting) || resulting < stored then Err(InvalidAccounting)
    else if plan.extraFilePriceCents.None? then Ok(0)
    else if !SafeCount(plan.includedFiles) || !SafeCount(plan.extraFilePriceCents.value) then Err(InvalidAccounting)
    else SafeNumber((Excess(plan, resulting) - Excess(plan, stored)) * plan.extraFilePriceCents.value)
  }

  /** Reference definition: pay for each added file, one at a time, that lands beyond the allowance. */
  function FileByFile(plan: Plan, stored: int, resulting: int): int
    decreases resulting - stored
  {
    if resulting <= stored || plan.extraFilePriceCents.None? then 0
    else FileByFile(plan, stored, resulting - 1) +
         if resulting > plan.includedFiles then plan.extraFilePriceCents.value else 0
  }

  lemma {:induction false} FileByFileIsExcess(plan: Plan, stored: int, resulting: int)
    requires stored <= resulting && plan.extraFilePriceCents.Some?
    ensures FileByFile(plan, stored, resulting)
            == (Excess(plan, resulting) - Excess(plan, stored)) * plan.extraFilePriceCents.value
    decreases resulting - stored
  {
    if stored < resulting {
      FileByFileIsExcess(plan, stored, resulting - 1);
      var price := plan.extraFilePriceCents.value;
      var before := Excess(plan, resulting - 1) - Excess(plan, stored);
      assert (before + 1) * price == before * price + price;
    }
  }

  /** The charge is that of the reference definition, or the amount is not a safe integer. */
  lemma {:induction false} OverageChargesFileByFile(code: PlanCode, stored: int, resulting: int)
    requires SafeCount(stored) && SafeCount(resulting) && stored <= resulting
    ensures AdditionalOverage(Find(code), stored, resulting)
            == SafeNumber(FileByFile(Find(code), stored, resulting))
  {
    if code == Premium {
      FileByFileIsExcess(Find(code), stored, resulting);
    }
  }

  /** Splitting a batch never changes what it costs. */
  lemma OverageTelescopes(code: PlanCode, stored: int, between: int, resulting: int)
    requires stored <= between <= resulting
    requires AdditionalOverage(Find(code), stored, resulting).Ok?
    ensures AdditionalOverage(Find(code), stored, between).Ok?
    ensures AdditionalOverage(Find(code), between, resulting).Ok?
    ensures AdditionalOverage(Find(code), stored, resulting).value
            == AdditionalOverage(Find(code), stored, between).value
             + AdditionalOverage(Find(code), between, resulting).value
  {
    var e0, e1, e2 := Excess(Find(code), stored), Excess(Find(code), between), Excess(Find(code), resulting);
    assert (e2 - e0) * 50 == (e1 - e0) * 50 + (e2 - e1) * 50;
  }

  /** What any one batch can add to a period row: whole units, at most one for each file. */
  lemma OverageIsWholeUnits(code: PlanCode, stored: int, quantity: int)
    requires quantity >= 0 && AdditionalOverage(Find(code), stored, stored + quantity).Ok?
    ensures var cents := AdditionalOverage(Find(code), stored, stored + quantity).value;
            cents % OVERAGE_UNIT == 0 && 0 <= cents <= OVERAGE_UNIT * quantity
  {
  }

  /** The amounts of calculate for one period row. */
  function Calculate(code: PlanCode, uploads: int, overageCents: int, employees: int): Result<Bill, BillingError> {
    var plan := Find(code);
    if !SafeCount(employees) || !SafeCount(uploads) || !SafeCount(overageCents) then Err(InvalidAccounting)
    else if overageCents % OVERAGE_UNIT != 0 then Err(InvalidAccounting)
    else
      var billable := if plan.employeePriceCents > 0 then employees else 0;
      match SafeNumber(billable * plan.employeePriceCents)
      case Err(e) => Err(e)
      case Ok(employeeCharge) =>
        if overageCents / OVERAGE_UNIT > uploads then Err(InvalidAccounting)
        else
          match SafeNumber(plan.basePriceCents + employeeCharge + overageCents)
          case Err(e) => Err(e)
          case Ok(total) => Ok(Bill(employeeCharge, overageCents / OVERAGE_UNIT, total))
  }

  predicate ConsistentRow(uploads: int, overageCents: int) {
    overageCents % OVERAGE_UNIT == 0 && 0 <= overageCents <= OVERAGE_UNIT * uploads
  }

  /**
    For safe counts, a bill is refused as inconsistent exactly when the row is not whole units
    of at most one per upload; a consistent row fails only because an amount is not a safe integer.
  */
  lemma CalculateAcceptsConsistentRows(code: PlanCode, uploads: int, overageCents: int, employees: int)
    requires SafeCount(uploads) && SafeCount(overageCents) && SafeCount(employees)
    ensures var seats := employees * Find(code).employeePriceCents;
            var total := Find(code).basePriceCents + seats + overageCents;
            Calculate(code, uploads, overageCents, employees) ==
            if seats > MAX_SAFE_INTEGER && overageCents % OVERAGE_UNIT == 0 then Err(UnsafeRange)
            else if !ConsistentRow(uploads, overageCents) then Err(InvalidAccounting)
            else if total > MAX_SAFE_INTEGER then Err(UnsafeRange)
            else Ok(Bill(seats, overageCents / OVERAGE_UNIT, total))
  {
    assert employees * 0 == 0;
  }
}

/** Minute-aligned meter windows and the timestamps of metered usage. */
module Metering {
  import opened Wrappers
  import opened Calendar

  function CeilDiv(a: int, b: int): int
    requires b > 0
  {
    -((-a) / b)
  }

  /** One edge of meterWindow: the first whole minute at or after an instant in milliseconds, in seconds. */
  function MeterEdge(t: int): int {
    CeilDiv(t, 60_000) * 60
  }

  /** One edge of the window reconcileDraft derives from an invoice line, whose period is in whole seconds. */
  function LineEdge(t: int): int {
    CeilDiv(t / 1000, 60) * 60
  }

  /** The timestamp enqueueOverage gives to usage recorded at `at` in the period [startsAt, endsAt). */
  function Timestamp(startsAt: int, endsAt: int, meterStartedAt: Option<int>, at: int): int {
    var started := if meterStartedAt.Some? then meterStartedAt.value else startsAt;
    Max(MeterEdge(startsAt), Max(MeterEdge(started), Min(at / 60_000 * 60, MeterEdge(endsAt) - 60)))
  }

  function Max(a: int, b: int): int { if a >= b then a else b }

  lemma CeilDivBounds(a: int, b: int)
    requires b > 0
    ensures b * CeilDiv(a, b) - b < a <= b * CeilDiv(a, b)
  {
    assert -a == b * ((-a) / b) + (-a) % b;
  }

  /** The two windows share an edge unless the instant is in the first second of a minute, past its start. */
  lemma EdgesAgree(t: int)
    ensures MeterEdge(t) == LineEdge(t) <==> t / 1000 % 60 != 0 || t % 1000 == 0
    ensures MeterEdge(t) == LineEdge(t) || MeterEdge(t) == LineEdge(t) + 60
  {
    var seconds, ms := t / 1000, t % 1000;
    var minutes, rest := seconds / 60, seconds % 60;
    assert t == 60_000 * minutes + 1000 * rest + ms;
    CeilDivBounds(t, 60_000);
    CeilDivBounds(seconds, 60);
    hide CeilDiv;
    if rest != 0 {
      assert CeilDiv(seconds, 60) == minutes + 1;
      assert CeilDiv(t, 60_000) == minutes + 1;
    } else {
      assert CeilDiv(seconds, 60) == minutes;
      assert CeilDiv(t, 60_000) == if ms == 0 then minutes else minutes + 1;
    }
  }

  /** Every anniversary falls on the same second and millisecond as the activation. */
  lemma AnniversaryClock(activatedAt: int, k: int)
    ensures Anniversary(activatedAt, k) / 1000 % 60 == activatedAt / 1000 % 60
    ensures Anniversary(activatedAt, k) % 1000 == activatedAt % 1000
  {
    hide MonthStart, MonthOfDay, Day, TimeInDay, Anniversary;
    AnniversaryInMonth(activatedAt, k);
    FieldsRebuildTime(activatedAt);
    FieldsRebuildTime(Anniversary(activatedAt, k));
  }

  predicate WholeSecondLines(activatedAt: int) {
    activatedAt / 1000 % 60 != 0 || activatedAt % 1000 == 0
  }

  /**
    An invoice line covers exactly the meter window of its period if and only if the activation
    is not in the first second of a minute, past its start.
  */
  lemma InvoiceWindowsAgree(activatedAt: int, k: int)
    ensures MeterEdge(Anniversary(activatedAt, k)) == LineEdge(Anniversary(activatedAt, k))
            <==> WholeSecondLines(activatedAt)
  {
    AnniversaryClock(activatedAt, k);
    EdgesAgree(Anniversary(activatedAt, k));
  }

  lemma EdgesIncrease(s: int, e: int)
    requires s + 60_000 <= e
    ensures MeterEdge(s) + 60 <= MeterEdge(e)
  {
    CeilDivBounds(s, 60_000);
    CeilDivBounds(e, 60_000);
  }

  /** Meter windows are non-empty, whole minutes, and increase with the month: they tile time. */
  lemma WindowsIncrease(activatedAt: int, j: int, k: int)
    requires j < k
    ensures MeterEdge(Anniversary(activatedAt, j)) + 60 <= MeterEdge(Anniversary(activatedAt, k))
  {
    hide MonthStart, MonthOfDay, Day, TimeInDay, Anniversary, MeterEdge;
    PeriodAtLeast28Days(activatedAt, j);
    if j + 1 < k {
      AnniversariesIncrease(activatedAt, j + 1, k);
    }
    EdgesIncrease(Anniversary(activatedAt, j), Anniversary(activatedAt, k));
  }

  /**
    A timestamp is a whole minute not before its own window. It reaches the closing edge, and the
    upload is refused, exactly when the meter starts no earlier than that, whatever the clock says.
  */
  lemma TimestampInWindow(startsAt: int, endsAt: int, meterStartedAt: Option<int>, at: int)
    ensures var ts := Timestamp(startsAt, endsAt, meterStartedAt, at);
            var meter := if meterStartedAt.Some? then meterStartedAt.value else startsAt;
            && ts % 60 == 0 && MeterEdge(startsAt) <= ts
            && (ts < MeterEdge(endsAt) <==> MeterEdge(startsAt) < MeterEdge(endsAt) && MeterEdge(meter) < MeterEdge(endsAt))
  {
  }
}
