/**
  Period accounting and the metered-usage outbox agree in every run: what reconcileDraft adds up
  for an invoice line is what the period recorded while Stripe managed the subscription.
*/
module UsageAccounting {
  import opened Wrappers
  import opened Calendar
  import opened Plans
  import opened Billing
  import opened Metering
  import opened Account

  // ----- Sums over the outbox -----

  /** Units recorded for the period that starts at `startsAt`. */
  function UnitsOf(rows: seq<UsageRow>, startsAt: int): int {
    if rows == [] then 0
    else
      var last := rows[|rows| - 1];
      UnitsOf(rows[..|rows| - 1], startsAt) + if last.startsAt == startsAt then last.quantity else 0
  }

  /** The sum reconcileDraft expects: rows whose timestamp lies in the window, whatever their period. */
  function UnitsBetween(rows: seq<UsageRow>, from: int, until: int): int {
    if rows == [] then 0
    else
      var last := rows[|rows| - 1];
      UnitsBetween(rows[..|rows| - 1], from, until) + if from <= last.timestamp < until then last.quantity else 0
  }

  lemma UnitsOfAppend(rows: seq<UsageRow>, row: UsageRow, startsAt: int)
    ensures UnitsOf(rows + [row], startsAt) == UnitsOf(rows, startsAt) + if row.startsAt == startsAt then row.quantity else 0
  {
    assert (rows + [row])[..|rows|] == rows;
  }

  lemma {:induction false} NoUnitsElsewhere(rows: seq<UsageRow>, startsAt: int)
    requires forall row :: row in rows ==> row.startsAt != startsAt
    ensures UnitsOf(rows, startsAt) == 0
  {
    if rows != [] {
      NoUnitsElsewhere(rows[..|rows| - 1], startsAt);
    }
  }

  // ----- The invariant -----

  predicate PeriodOk(row: PeriodRow, units: int) {
    && ConsistentRow(row.uploaded, row.overageCents)
    && 0 <= row.meteredCents <= row.overageCents
    && row.meteredCents == OVERAGE_UNIT * units
  }

  /** A usage row names a period of the subscription and is stamped on a whole minute inside its meter window. */
  predicate RowOk(activatedAt: int, periods: map<int, PeriodRow>, row: UsageRow) {
    var k := PeriodMonth(activatedAt, row.startsAt);
    && row.startsAt == Anniversary(activatedAt, k)
    && row.endsAt == Anniversary(activatedAt, k + 1)
    && MeterEdge(row.startsAt) <= row.timestamp < MeterEdge(row.endsAt)
    && row.timestamp % 60 == 0
    && row.quantity >= 1
    && row.startsAt in periods
    && 1 <= row.sequence <= periods[row.startsAt].uploaded
  }

  /** Identifiers are unique because the sequence of a period strictly increases. */
  predicate SequencesIncrease(rows: seq<UsageRow>) {
    forall i, j :: 0 <= i < j < |rows| && rows[i].startsAt == rows[j].startsAt ==> rows[i].sequence < rows[j].sequence
  }

  predicate AccountingOk(a: Account) {
    && (forall p :: p in a.periods ==> PeriodOk(a.periods[p], UnitsOf(a.outbox, p)))
    && (forall row :: row in a.outbox ==> RowOk(a.activatedAt, a.periods, row))
    && SequencesIncrease(a.outbox)
  }

  /** The activation instants for which every returned period is the intended one. */
  predicate Supported(activatedAt: Instant) {
    1200 <= MonthIndex(activatedAt)
  }

  lemma UploadPeriod(a: Account, at: Instant)
    requires Supported(a.activatedAt)
    ensures var p := BillingPeriod(Some(a.activatedAt), Some(at));
            p.Ok? && p.value.startsAt.Some? && p.value.endsAt.Some? ==>
              (p.value.startsAt.value, p.value.endsAt.value) == IntendedPeriod(a.activatedAt, at)
  {
    hide MonthStart, MonthOfDay, TimeInDay, Day, Anniversary, Boundary, MonthIndex;
    if a.activatedAt <= at {
      var m := PeriodMonth(a.activatedAt, at);
      NoEarlierThanAnchor(a.activatedAt, at);
      if m < LAST_MONTH - 1 {
        BillingPeriodIntended(a.activatedAt, at);
      } else {
        PeriodContains(a.activatedAt, at, m);
        BoundaryInRange(a.activatedAt, m);
        BoundaryInRange(a.activatedAt, m + 1);
        BoundaryInRange(a.activatedAt, m + 2);
      }
    }
  }

  lemma UploadKeepsAccounting(a: Account, quantity: nat, at: Instant)
    requires Supported(a.activatedAt) && AccountingOk(a) && quantity >= 1
    ensures AccountingOk(OrElse(Upload(a, quantity, at), a))
  {
    hide MonthStart, MonthOfDay, TimeInDay, Day, Anniversary, BillingPeriod, PeriodMonth, UploadIn, AccountingOk;
    if Upload(a, quantity, at).Ok? {
      UploadPeriod(a, at);
      var k := PeriodMonth(a.activatedAt, at);
      AnniversaryPeriod(a.activatedAt, k);
      UploadInKeepsAccounting(a, quantity, k, at);
    }
  }

  lemma AnniversaryPeriod(activatedAt: int, k: int)
    ensures PeriodMonth(activatedAt, Anniversary(activatedAt, k)) == k
  {
    hide MonthStart, MonthOfDay, TimeInDay, Day, Anniversary, PeriodMonth;
    AnniversariesIncrease(activatedAt, k, k + 1);
    PeriodContains(activatedAt, Anniversary(activatedAt, k), k);
  }

  lemma UploadInKeepsAccounting(a: Account, quantity: nat, k: int, at: int)
    requires AccountingOk(a) && quantity >= 1 && PeriodMonth(a.activatedAt, Anniversary(a.activatedAt, k)) == k
    requires a.link.managed ==> a.link.enabled
    requires UploadIn(a, quantity, Anniversary(a.activatedAt, k), Anniversary(a.activatedAt, k + 1), at).Ok?
    ensures AccountingOk(UploadIn(a, quantity, Anniversary(a.activatedAt, k), Anniversary(a.activatedAt, k + 1), at).value)
  {
    hide Anniversary, PeriodMonth, AdditionalOverage, Timestamp, MeterEdge, Find, FilesFit;
    var p, e := Anniversary(a.activatedAt, k), Anniversary(a.activatedAt, k + 1);
    var b := UploadIn(a, quantity, p, e, at).value;
    var cents := AdditionalOverage(Find(a.plan), a.files, a.files + quantity).value;
    OverageIsWholeUnits(a.plan, a.files, quantity);
    if p !in a.periods {
      NoUnitsElsewhere(a.outbox, p);
    }
    if b.outbox == a.outbox {
      NoRowKeepsAccounting(a, b, p, cents, quantity);
    } else {
      TimestampInWindow(p, e, a.link.meterStartedAt, at);
      NewRowKeepsAccounting(a, b, p, cents, quantity);
    }
  }

  predicate Recorded(a: Account, b: Account, p: int, cents: int, quantity: nat) {
    && b.activatedAt == a.activatedAt
    && b.periods == a.periods[p := PeriodRow(RowAt(a, p).uploaded + quantity, RowAt(a, p).overageCents + cents,
                                             RowAt(a, p).meteredCents + if a.link.managed then cents else 0)]
    && PeriodOk(RowAt(a, p), UnitsOf(a.outbox, p))
    && cents % OVERAGE_UNIT == 0 && 0 <= cents <= OVERAGE_UNIT * quantity
  }

  lemma NoRowKeepsAccounting(a: Account, b: Account, p: int, cents: int, quantity: nat)
    requires AccountingOk(a) && Recorded(a, b, p, cents, quantity) && b.outbox == a.outbox
    requires a.link.managed ==> cents == 0
    ensures AccountingOk(b)
  {
    hide Anniversary, PeriodMonth, MeterEdge, UnitsOf, RowOk;
    forall row | row in b.outbox ensures RowOk(b.activatedAt, b.periods, row) {
      RowStaysOk(a.activatedAt, a.periods, b.periods, row);
    }
  }

  lemma RowSequence(activatedAt: int, periods: map<int, PeriodRow>, row: UsageRow)
    requires RowOk(activatedAt, periods, row)
    ensures row.startsAt in periods && 1 <= row.sequence <= periods[row.startsAt].uploaded && row.quantity >= 1
  {
    hide Anniversary, PeriodMonth, MeterEdge;
  }

  lemma RowStaysOk(activatedAt: int, before: map<int, PeriodRow>, after: map<int, PeriodRow>, row: UsageRow)
    requires RowOk(activatedAt, before, row)
    requires row.startsAt in before ==> row.startsAt in after && before[row.startsAt].uploaded <= after[row.startsAt].uploaded
    ensures RowOk(activatedAt, after, row)
  {
    hide Anniversary, PeriodMonth, MeterEdge;
  }

  lemma NewRowKeepsAccounting(a: Account, b: Account, p: int, cents: int, quantity: nat)
    requires AccountingOk(a) && Recorded(a, b, p, cents, quantity) && a.link.managed && quantity >= 1
    requires |b.outbox| == |a.outbox| + 1 && b.outbox == a.outbox + [b.outbox[|a.outbox|]]
    requires var row := b.outbox[|a.outbox|];
             row.startsAt == p && row.sequence == RowAt(a, p).uploaded + quantity &&
             OVERAGE_UNIT * row.quantity == cents && RowOk(a.activatedAt, b.periods, row)
    ensures AccountingOk(b)
  {
    hide Anniversary, PeriodMonth, MeterEdge, UnitsOf, RowOk;
    var row := b.outbox[|a.outbox|];
    RowSequence(a.activatedAt, b.periods, row);
    forall q | q in b.periods ensures PeriodOk(b.periods[q], UnitsOf(b.outbox, q)) {
      UnitsOfAppend(a.outbox, row, q);
    }
    forall r | r in b.outbox ensures RowOk(b.activatedAt, b.periods, r) {
      if r != row {
        assert r in a.outbox;
        RowStaysOk(a.activatedAt, a.periods, b.periods, r);
      }
    }
    forall r | r in a.outbox ensures r.startsAt in a.periods && r.sequence <= a.periods[r.startsAt].uploaded {
      RowSequence(a.activatedAt, a.periods, r);
    }
    forall i, j | 0 <= i < j < |b.outbox| && b.outbox[i].startsAt == b.outbox[j].startsAt
      ensures b.outbox[i].sequence < b.outbox[j].sequence
    {
      assert b.outbox[i] == a.outbox[i] && b.outbox[i] in a.outbox;
      if j < |a.outbox| {
        assert b.outbox[j] == a.outbox[j];
      }
    }
  }

  /** Every step of a supported account keeps its accounting, whatever the plan, link or clock do. */
  lemma StepKeepsAccounting(a: Account, action: Action, now: int)
    requires Supported(a.activatedAt) && AccountingOk(a)
    ensures AccountingOk(Step(a, action, now)) && Step(a, action, now).activatedAt == a.activatedAt
  {
    hide Upload, AccountingOk;
    var b := Step(a, action, now);
    if action.DoUpload? {
      if action.quantity >= 1 {
        UploadKeepsAccounting(a, action.quantity, action.when);
        UploadKeepsActivation(a, action.quantity, action.when);
      }
    } else {
      assert b.activatedAt == a.activatedAt && b.periods == a.periods && b.outbox == a.outbox;
      SameRows(a, b);
    }
  }

  lemma UploadKeepsActivation(a: Account, quantity: nat, at: Instant)
    ensures OrElse(Upload(a, quantity, at), a).activatedAt == a.activatedAt
  {
    hide BillingPeriod, AdditionalOverage, EnqueueOverage, FilesFit;
  }

  lemma SameRows(a: Account, b: Account)
    requires AccountingOk(a) && b.activatedAt == a.activatedAt && b.periods == a.periods && b.outbox == a.outbox
    ensures AccountingOk(b)
  {
  }

  lemma {:induction false} RunKeepsAccounting(activatedAt: Instant, enabled: bool, trace: seq<Timed>)
    requires Supported(activatedAt)
    ensures var a := Run(Initial(activatedAt, enabled), trace); AccountingOk(a) && a.activatedAt == activatedAt
    decreases |trace|
  {
    hide Supported, Step;
    if trace != [] {
      var init, last := trace[..|trace| - 1], trace[|trace| - 1];
      RunKeepsAccounting(activatedAt, enabled, init);
      StepKeepsAccounting(Run(Initial(activatedAt, enabled), init), last.action, last.now);
    }
  }

  // ----- What follows -----

  /** A row is stamped inside an invoice line's window exactly when it was recorded for that line's period. */
  lemma RowInInvoiceWindow(activatedAt: int, periods: map<int, PeriodRow>, row: UsageRow, k: int)
    requires WholeSecondLines(activatedAt) && RowOk(activatedAt, periods, row)
    ensures LineEdge(Anniversary(activatedAt, k)) <= row.timestamp < LineEdge(Anniversary(activatedAt, k + 1))
            <==> row.startsAt == Anniversary(activatedAt, k)
  {
    hide Anniversary, PeriodMonth, MeterEdge, LineEdge, WholeSecondLines;
    var j := PeriodMonth(activatedAt, row.startsAt);
    InvoiceWindowsAgree(activatedAt, k);
    InvoiceWindowsAgree(activatedAt, k + 1);
    if j < k {
      AnniversariesIncrease(activatedAt, j, k);
      if j + 1 < k { WindowsIncrease(activatedAt, j + 1, k); }
    } else if k < j {
      AnniversariesIncrease(activatedAt, k, j);
      if k + 1 < j { WindowsIncrease(activatedAt, k + 1, j); }
    }
  }

  lemma RowsNamePeriods(a: Account)
    requires AccountingOk(a)
    ensures forall row :: row in a.outbox ==> row.startsAt in a.periods
  {
  }

  // ----- Invoice lines -----

  /** What reconcileDraft bills for an overage line from `start` to the end of period k. */
  function LineCents(a: Account, start: int, k: int): int {
    OVERAGE_UNIT * UnitsBetween(a.outbox, LineEdge(start), LineEdge(Anniversary(a.activatedAt, k + 1)))
  }

  function MeteredCents(a: Account, k: int): int {
    RowAt(a, Anniversary(a.activatedAt, k)).meteredCents
  }

  /** The line of the whole period k bills what the period metered. */
  predicate Conserved(a: Account, k: int) {
    LineCents(a, Anniversary(a.activatedAt, k), k) == MeteredCents(a, k)
  }

  /** The line of period k starts with the period, or with the meter if that starts later. */
  function LineStart(activatedAt: int, meterStart: int, k: int): int {
    if meterStart <= Anniversary(activatedAt, k) then Anniversary(activatedAt, k) else meterStart
  }

  /** How many steps of the run had been made when its current meter start was stored. */
  function Mark(a: Account, trace: seq<Timed>): (n: nat)
    ensures n <= |trace|
  {
    if trace == [] then 0
    else if Run(a, trace).link.meterStartedAt != Run(a, trace[..|trace| - 1]).link.meterStartedAt then |trace|
    else Mark(a, trace[..|trace| - 1])
  }

  /** The account as it was when the current meter start was stored. */
  function Since(a: Account, trace: seq<Timed>): Account {
    Run(a, trace[..Mark(a, trace)])
  }

  predicate StampedFrom(rows: seq<UsageRow>, from: nat, meterStartedAt: Option<int>)
    requires from <= |rows|
  {
    meterStartedAt.Some? ==> forall i :: from <= i < |rows| ==> MeterEdge(meterStartedAt.value) <= rows[i].timestamp
  }

  predicate WholeSeconds(meterStartedAt: Option<int>) {
    meterStartedAt.Some? ==> meterStartedAt.value % 1000 == 0
  }

  /** A step adds at most one row, stamped no earlier than the meter start, and leaves that start alone if it does. */
  predicate Enqueued(a: Account, b: Account) {
    || b.outbox == a.outbox
    || (b.link == a.link && |b.outbox| == |a.outbox| + 1 && a.outbox <= b.outbox &&
        StampedFrom(b.outbox, |a.outbox|, a.link.meterStartedAt))
  }

  lemma TimestampFromMeter(startsAt: int, endsAt: int, meterStartedAt: Option<int>, at: int)
    ensures meterStartedAt.Some? ==> MeterEdge(meterStartedAt.value) <= Timestamp(startsAt, endsAt, meterStartedAt, at)
  {
  }

  lemma UploadEnqueues(a: Account, quantity: nat, at: Instant)
    ensures Enqueued(a, OrElse(Upload(a, quantity, at), a))
  {
    hide BillingPeriod, AdditionalOverage, FilesFit, Find, Timestamp, MeterEdge;
    match BillingPeriod(Some(a.activatedAt), Some(at))
    case Ok(Period(Some(startsAt), Some(endsAt))) => TimestampFromMeter(startsAt, endsAt, a.link.meterStartedAt, at);
    case _ => {}
  }

  lemma StepEnqueues(a: Account, action: Action, now: int)
    requires WholeSeconds(a.link.meterStartedAt)
    ensures Enqueued(a, Step(a, action, now)) && WholeSeconds(Step(a, action, now).link.meterStartedAt)
  {
    hide Upload, PlanFits, Capacity;
    if action.DoUpload? {
      UploadEnqueues(a, action.quantity, action.when);
      UploadKeepsLink(a, action.quantity, action.when);
    }
  }

  lemma UploadKeepsLink(a: Account, quantity: nat, at: Instant)
    ensures OrElse(Upload(a, quantity, at), a).link == a.link
  {
    hide BillingPeriod, AdditionalOverage, EnqueueOverage, FilesFit;
  }

  /** Every row recorded since the meter start was stored is stamped no earlier than that start. */
  lemma {:induction false} RowsSinceMeterStart(a: Account, trace: seq<Timed>)
    requires WholeSeconds(a.link.meterStartedAt)
    ensures var b := Run(a, trace);
            Since(a, trace).outbox <= b.outbox && StampedFrom(b.outbox, |Since(a, trace).outbox|, b.link.meterStartedAt) &&
            WholeSeconds(b.link.meterStartedAt)
  {
    hide Step, MeterEdge;
    if trace != [] {
      var n := |trace| - 1;
      var init := trace[..n];
      RowsSinceMeterStart(a, init);
      StepEnqueues(Run(a, init), trace[n].action, trace[n].now);
      if Run(a, trace).link.meterStartedAt == Run(a, init).link.meterStartedAt {
        assert trace[..Mark(a, init)] == init[..Mark(a, init)];
      } else {
        assert trace[..|trace|] == trace;
      }
    }
  }

  /** Units of the period's rows that are stamped inside a window. */
  function UnitsWithin(rows: seq<UsageRow>, startsAt: int, from: int, until: int): int {
    if rows == [] then 0
    else
      var last := rows[|rows| - 1];
      UnitsWithin(rows[..|rows| - 1], startsAt, from, until) +
      if last.startsAt == startsAt && from <= last.timestamp < until then last.quantity else 0
  }

  /** Units of the period's rows that are stamped before or after the window. */
  function UnitsOutside(rows: seq<UsageRow>, startsAt: int, from: int, until: int): int {
    UnitsOf(rows, startsAt) - UnitsWithin(rows, startsAt, from, until)
  }

  predicate AllWithin(rows: seq<UsageRow>, startsAt: int, from: int, until: int) {
    forall row :: row in rows && row.startsAt == startsAt ==> from <= row.timestamp < until
  }

  predicate NoneWithin(rows: seq<UsageRow>, startsAt: int, from: int, until: int) {
    forall row :: row in rows && row.startsAt == startsAt ==> row.timestamp < from || until <= row.timestamp
  }

  /** All of the period's units are inside exactly when all its rows are, and none when none is. */
  lemma {:induction false} WithinUnits(rows: seq<UsageRow>, startsAt: int, from: int, until: int)
    requires forall row :: row in rows ==> row.quantity >= 1
    ensures 0 <= UnitsWithin(rows, startsAt, from, until) <= UnitsOf(rows, startsAt)
    ensures UnitsOutside(rows, startsAt, from, until) == 0 <==> AllWithin(rows, startsAt, from, until)
    ensures UnitsWithin(rows, startsAt, from, until) == 0 <==> NoneWithin(rows, startsAt, from, until)
  {
    if rows != [] {
      var init, last := rows[..|rows| - 1], rows[|rows| - 1];
      assert rows == init + [last];
      WithinUnits(init, startsAt, from, until);
    }
  }

  lemma {:induction false} WithinJoin(left: seq<UsageRow>, right: seq<UsageRow>, startsAt: int, from: int, until: int)
    ensures UnitsWithin(left + right, startsAt, from, until) ==
            UnitsWithin(left, startsAt, from, until) + UnitsWithin(right, startsAt, from, until)
    ensures UnitsOf(left + right, startsAt) == UnitsOf(left, startsAt) + UnitsOf(right, startsAt)
  {
    if right == [] {
      assert left + right == left;
    } else {
      WithinJoin(left, right[..|right| - 1], startsAt, from, until);
      assert (left + right)[..|left + right| - 1] == left + right[..|right| - 1];
    }
  }

  /** A line that starts in period k only holds rows of that period and, before its meter window, of the one before. */
  lemma RowInLine(activatedAt: int, periods: map<int, PeriodRow>, row: UsageRow, k: int, from: int)
    requires RowOk(activatedAt, periods, row) && LineEdge(Anniversary(activatedAt, k)) <= from
    ensures Anniversary(activatedAt, k - 1) != Anniversary(activatedAt, k)
    ensures from <= row.timestamp < LineEdge(Anniversary(activatedAt, k + 1)) ==>
              row.startsAt == Anniversary(activatedAt, k) || row.startsAt == Anniversary(activatedAt, k - 1)
    ensures row.startsAt == Anniversary(activatedAt, k - 1) ==> row.timestamp < MeterEdge(Anniversary(activatedAt, k))
    ensures row.startsAt == Anniversary(activatedAt, k) ==> row.timestamp < MeterEdge(Anniversary(activatedAt, k + 1))
  {
    hide Anniversary, PeriodMonth, MeterEdge, LineEdge;
    var j := PeriodMonth(activatedAt, row.startsAt);
    EdgesAgree(Anniversary(activatedAt, k));
    EdgesAgree(Anniversary(activatedAt, k + 1));
    AnniversariesIncrease(activatedAt, k - 1, k);
    if j < k - 1 {
      AnniversariesIncrease(activatedAt, j, k - 1);
      WindowsIncrease(activatedAt, j + 1, k);
    } else if k < j {
      AnniversariesIncrease(activatedAt, k, j);
      if k + 1 < j { WindowsIncrease(activatedAt, k + 1, j); }
    }
  }

  /** What a line of period k bills, whatever the activation. */
  lemma {:induction false} InvoiceSum(activatedAt: int, periods: map<int, PeriodRow>, rows: seq<UsageRow>, k: int, from: int)
    requires forall row :: row in rows ==> RowOk(activatedAt, periods, row)
    requires LineEdge(Anniversary(activatedAt, k)) <= from
    ensures var opens, prior := Anniversary(activatedAt, k), Anniversary(activatedAt, k - 1);
            var until := LineEdge(Anniversary(activatedAt, k + 1));
            && UnitsBetween(rows, from, until) == UnitsWithin(rows, opens, from, until) + UnitsWithin(rows, prior, from, until)
            && (MeterEdge(opens) <= from ==> NoneWithin(rows, prior, from, until))
            && AllWithin(rows, opens, MeterEdge(opens), MeterEdge(Anniversary(activatedAt, k + 1)))
    decreases |rows|
  {
    hide Anniversary, RowOk, LineEdge, MeterEdge;
    if rows != [] {
      var init, last := rows[..|rows| - 1], rows[|rows| - 1];
      assert rows == init + [last];
      InvoiceSum(activatedAt, periods, init, k, from);
      RowInLine(activatedAt, periods, last, k, from);
      RowOpens(activatedAt, periods, last, k);
    }
  }

  lemma RowOpens(activatedAt: int, periods: map<int, PeriodRow>, row: UsageRow, k: int)
    requires RowOk(activatedAt, periods, row)
    ensures row.startsAt == Anniversary(activatedAt, k) ==> MeterEdge(Anniversary(activatedAt, k)) <= row.timestamp
  {
  }

  lemma LineEdgeMonotone(s: int, t: int)
    requires s <= t
    ensures LineEdge(s) <= LineEdge(t)
  {
    CeilDivBounds(s / 1000, 60);
    CeilDivBounds(t / 1000, 60);
  }

  lemma MeteredIsUnits(a: Account, k: int)
    requires AccountingOk(a)
    ensures MeteredCents(a, k) == OVERAGE_UNIT * UnitsOf(a.outbox, Anniversary(a.activatedAt, k))
    ensures forall row :: row in a.outbox ==> row.quantity >= 1
  {
    hide Anniversary;
    RowsNamePeriods(a);
    if Anniversary(a.activatedAt, k) !in a.periods {
      NoUnitsElsewhere(a.outbox, Anniversary(a.activatedAt, k));
    }
  }

  /** Rows recorded since the meter start are stamped inside the line of that start, or in the minute that closes the period. */
  lemma SinceIsWithin(activatedAt: int, periods: map<int, PeriodRow>, rows: seq<UsageRow>, k: int, meterStart: int)
    requires meterStart % 1000 == 0
    requires forall row :: row in rows ==> RowOk(activatedAt, periods, row) && MeterEdge(meterStart) <= row.timestamp
    ensures AllWithin(rows, Anniversary(activatedAt, k), LineEdge(LineStart(activatedAt, meterStart, k)),
                      MeterEdge(Anniversary(activatedAt, k + 1)))
  {
    hide Anniversary, PeriodMonth, MeterEdge, LineEdge, RowOk;
    EdgesAgree(meterStart);
    EdgesAgree(Anniversary(activatedAt, k));
    InvoiceSum(activatedAt, periods, rows, k, LineEdge(Anniversary(activatedAt, k)));
  }

  /**
    A line from any moment on to the end of the period. It bills what the period metered exactly
    when the period's units outside the line are as many as those of the period before inside it.
    No row of the period before is inside it unless the line opens in the minute before the meter
    window, which takes an activation in the first second of a minute, past its start; then every
    row of the period has to be inside the line.
  */
  lemma AnyLineExactly(activatedAt: Instant, enabled: bool, trace: seq<Timed>, k: int, start: int)
    requires Supported(activatedAt) && Anniversary(activatedAt, k) <= start
    ensures var a := Run(Initial(activatedAt, enabled), trace);
            var opens, prior := Anniversary(activatedAt, k), Anniversary(activatedAt, k - 1);
            var from, until := LineEdge(start), LineEdge(Anniversary(activatedAt, k + 1));
            && LineCents(a, start, k) ==
               OVERAGE_UNIT * (UnitsWithin(a.outbox, opens, from, until) + UnitsWithin(a.outbox, prior, from, until))
            && (LineCents(a, start, k) == MeteredCents(a, k)
                <==> UnitsOutside(a.outbox, opens, from, until) == UnitsWithin(a.outbox, prior, from, until))
            && (WholeSecondLines(activatedAt) || LineEdge(opens) < from ==>
                  && NoneWithin(a.outbox, prior, from, until)
                  && (LineCents(a, start, k) == MeteredCents(a, k) <==> AllWithin(a.outbox, opens, from, until)))
  {
    hide Run, Anniversary, MeterEdge, LineEdge, WholeSecondLines, Supported, RowOk, AccountingOk, AllWithin, NoneWithin;
    var a := Run(Initial(activatedAt, enabled), trace);
    var opens, prior := Anniversary(activatedAt, k), Anniversary(activatedAt, k - 1);
    var from, until := LineEdge(start), LineEdge(Anniversary(activatedAt, k + 1));
    RunKeepsAccounting(activatedAt, enabled, trace);
    RowsAreOk(a);
    LineEdgeMonotone(opens, start);
    FirstEdge(activatedAt, k, start);
    InvoiceSum(activatedAt, a.periods, a.outbox, k, from);
    MeteredIsUnits(a, k);
    WithinUnits(a.outbox, opens, from, until);
    WithinUnits(a.outbox, prior, from, until);
  }

  /** Line edges are whole minutes, so a later one is past the first meter edge. */
  lemma FirstEdge(activatedAt: int, k: int, start: int)
    requires LineEdge(Anniversary(activatedAt, k)) <= LineEdge(start)
    ensures WholeSecondLines(activatedAt) || LineEdge(Anniversary(activatedAt, k)) < LineEdge(start) ==>
              MeterEdge(Anniversary(activatedAt, k)) <= LineEdge(start)
  {
    hide Anniversary;
    InvoiceWindowsAgree(activatedAt, k);
    EdgesAgree(Anniversary(activatedAt, k));
  }

  /**
    Conservation for whole periods. After any run of a company whose activation has nonzero seconds
    or zero milliseconds, the units reconcileDraft finds in the window of the line of any period,
    at the unit price, are the cents that period recorded while Stripe managed it.
  */
  lemma InvoiceMatchesPeriod(activatedAt: Instant, enabled: bool, trace: seq<Timed>, k: int)
    requires Supported(activatedAt) && WholeSecondLines(activatedAt)
    ensures Conserved(Run(Initial(activatedAt, enabled), trace), k)
  {
    hide Anniversary, RowOk, LineEdge, MeterEdge, WholeSecondLines, Supported, Run, AccountingOk, PeriodMonth;
    var a := Run(Initial(activatedAt, enabled), trace);
    RunKeepsAccounting(activatedAt, enabled, trace);
    RowsAreOk(a);
    AnyLineExactly(activatedAt, enabled, trace, k, Anniversary(activatedAt, k));
    forall row | row in a.outbox && row.startsAt == Anniversary(activatedAt, k)
      ensures LineEdge(Anniversary(activatedAt, k)) <= row.timestamp < LineEdge(Anniversary(activatedAt, k + 1))
    {
      RowInInvoiceWindow(activatedAt, a.periods, row, k);
    }
  }

  /**
    Every overage line, from the meter start that is stored, or from the start of the period if
    that is later, to the end of the period, for every activation. Besides what AnyLineExactly
    says of it: what was recorded since that meter start is billed, except rows in the minute that
    closes the period. The line bills what the period metered since that meter start exactly when
    what it bills of earlier rows makes up for those it loses; where line and meter window agree,
    exactly when no row recorded before that is inside the line.
  */
  lemma LineMatchesExactly(activatedAt: Instant, enabled: bool, trace: seq<Timed>, k: int, meterStart: int)
    requires Supported(activatedAt)
    requires Run(Initial(activatedAt, enabled), trace).link.meterStartedAt == Some(meterStart)
    ensures var a, since := Run(Initial(activatedAt, enabled), trace), Since(Initial(activatedAt, enabled), trace);
            var opens, prior := Anniversary(activatedAt, k), Anniversary(activatedAt, k - 1);
            var start := LineStart(activatedAt, meterStart, k);
            var from, until := LineEdge(start), LineEdge(Anniversary(activatedAt, k + 1));
            && since.outbox <= a.outbox
            && var rest := a.outbox[|since.outbox|..];
            && AllWithin(rest, opens, from, MeterEdge(Anniversary(activatedAt, k + 1)))
            && (LineCents(a, start, k) == MeteredCents(a, k)
                <==> UnitsOutside(a.outbox, opens, from, until) == UnitsWithin(a.outbox, prior, from, until))
            && (LineCents(a, start, k) == MeteredCents(a, k) - MeteredCents(since, k)
                <==> UnitsOutside(rest, opens, from, until) ==
                     UnitsWithin(since.outbox, opens, from, until) + UnitsWithin(a.outbox, prior, from, until))
            && (WholeSecondLines(activatedAt) ==>
                  && (LineCents(a, start, k) == MeteredCents(a, k) <==> AllWithin(a.outbox, opens, from, until))
                  && (LineCents(a, start, k) == MeteredCents(a, k) - MeteredCents(since, k)
                      <==> NoneWithin(since.outbox, opens, from, until)))
  {
    hide Run, Anniversary, MeterEdge, LineEdge, WholeSecondLines, Supported, RowOk, AccountingOk, AllWithin, NoneWithin;
    var a0 := Initial(activatedAt, enabled);
    var a, since := Run(a0, trace), Since(a0, trace);
    var opens, prior, start := Anniversary(activatedAt, k), Anniversary(activatedAt, k - 1), LineStart(activatedAt, meterStart, k);
    var from, until := LineEdge(start), LineEdge(Anniversary(activatedAt, k + 1));
    RunKeepsAccounting(activatedAt, enabled, trace);
    RunKeepsAccounting(activatedAt, enabled, trace[..Mark(a0, trace)]);
    RowsSinceMeterStart(a0, trace);
    RowsAreOk(a);
    AnyLineExactly(activatedAt, enabled, trace, k, start);
    var rest := a.outbox[|since.outbox|..];
    assert a.outbox == since.outbox + rest;
    SinceIsWithin(activatedAt, a.periods, rest, k, meterStart);
    WithinJoin(since.outbox, rest, opens, from, until);
    MeteredIsUnits(a, k);
    MeteredIsUnits(since, k);
    WithinUnits(since.outbox, opens, from, until);
    WithinUnits(rest, opens, from, until);
    WithinUnits(a.outbox, prior, from, until);
    InvoiceWindowsAgree(activatedAt, k + 1);
  }

  lemma RowsAreOk(a: Account)
    requires AccountingOk(a)
    ensures forall row :: row in a.outbox ==> RowOk(a.activatedAt, a.periods, row)
  {
  }

  // ----- Runs that a line misses -----

  function PremiumPaid(meterStart: int): Remote {
    Remote(Premium, Collecting, Paid, false, false, meterStart)
  }

  const ENDED := Remote(Premium, Ended, Paid, false, false, 0)

  /** Where a paid Premium subscription leaves the link. */
  function Paying(at: int, meterStart: int): Link {
    Link(true, true, true, true, false, false, Active, NoIssue, Some(at), Some(meterStart * 1000))
  }

  /** The second in which the activation lies. */
  function StartSecond(activatedAt: int): int {
    activatedAt / 1000
  }

  /** Checkout at the moment of the activation. */
  function Subscribe(activatedAt: Instant): seq<Timed> {
    [] + [Timed(DoLinkCustomer, activatedAt)] + [Timed(DoLinkSubscription, activatedAt)]
    + [Timed(DoCanonical(PremiumPaid(StartSecond(activatedAt)), activatedAt), activatedAt)]
  }

  /** The company after Checkout, with `files` files and what they cost. */
  function Subscribed(activatedAt: Instant): Account {
    Initial(activatedAt, true).(plan := Premium, link := Paying(activatedAt, StartSecond(activatedAt)))
  }

  lemma Then(a: Account, trace: seq<Timed>, next: Timed, b: Account, c: Account)
    requires Run(a, trace) == b && Step(b, next.action, next.now) == c
    ensures Run(a, trace + [next]) == c
  {
    assert (trace + [next])[..|trace|] == trace;
  }

  lemma NoSteps(a: Account)
    ensures Run(a, []) == a
  {
  }

  /** A paid Premium subscription is taken over as it is. */
  lemma TakenOver(a: Account, at: int, meterStart: int, now: int)
    requires a.pendingPlan == None && a.link.enabled && a.link.hasCustomer && a.link.hasSubscription && !a.link.confirmed
    requires a.link.meterStartedAt.None? || (a.plan == Premium && a.link.meterStartedAt == Some(meterStart * 1000))
    ensures Step(a, DoCanonical(PremiumPaid(meterStart), at), now) == a.(plan := Premium, link := Paying(at, meterStart))
  {
    assert PlanFits(a, Premium, at).None?;
  }

  lemma SubscribeRun(activatedAt: Instant)
    ensures Run(Initial(activatedAt, true), Subscribe(activatedAt)) == Subscribed(activatedAt)
  {
    var a, t := Initial(activatedAt, true), activatedAt;
    var b := a.(link := a.link.(hasCustomer := true));
    var c := b.(link := b.link.(hasSubscription := true, managed := true));
    var t1 := [] + [Timed(DoLinkCustomer, t)];
    var t2 := t1 + [Timed(DoLinkSubscription, t)];
    var last := Timed(DoCanonical(PremiumPaid(StartSecond(t)), t), t);
    assert Step(a, DoLinkCustomer, t) == b && Step(b, DoLinkSubscription, t) == c;
    TakenOver(c, t, StartSecond(t), t);
    hide Step, Run;
    NoSteps(a);
    Then(a, [], Timed(DoLinkCustomer, t), a, b);
    Then(a, t1, Timed(DoLinkSubscription, t), b, c);
    Then(a, t2, last, c, Subscribed(t));
  }

  lemma UploadDone(a: Account, quantity: nat, at: Instant, startsAt: Instant, endsAt: Instant, now: int)
    requires PaymentAccess(a, at) && quantity >= 1
    requires BillingPeriod(Some(a.activatedAt), Some(at)) == Ok(Period(Some(startsAt), Some(endsAt)))
    ensures Step(a, DoUpload(quantity, at), now) == OrElse(UploadIn(a, quantity, startsAt, endsAt, at), a)
  {
    hide BillingPeriod, UploadIn;
  }

  // ----- A second subscription in the same period -----

  /** One file beyond the allowance; the subscription ends; another one starts at second `again` of the same period. */
  function Resubscribe(activatedAt: Instant, again: int, at: Instant): seq<Timed> {
    Subscribe(activatedAt) + [Timed(DoUpload(1001, activatedAt), activatedAt)] + [Timed(DoCanonical(ENDED, at), at)]
    + [Timed(DoResetCheckout, at)] + [Timed(DoLinkSubscription, at)] + [Timed(DoCanonical(PremiumPaid(again), at), at)]
  }

  /** The period's one unit, recorded by the first subscription. */
  function OneUnit(a: Account, end: int): Account {
    a.(files := 1001, outbox := [UsageRow(a.activatedAt, end, 1001, 1, MeterEdge(a.activatedAt))],
       periods := map[a.activatedAt := PeriodRow(1001, 50, 50)])
  }

  lemma OneUnitUpload(a: Account, end: int, ts: int)
    requires a == Subscribed(a.activatedAt) && ts < MeterEdge(end)
    requires Timestamp(a.activatedAt, end, Some(StartSecond(a.activatedAt) * 1000), a.activatedAt) == ts
    ensures UploadIn(a, 1001, a.activatedAt, end, a.activatedAt)
            == Ok(a.(files := 1001, outbox := [UsageRow(a.activatedAt, end, 1001, 1, ts)],
                     periods := map[a.activatedAt := PeriodRow(1001, 50, 50)]))
  {
    hide Timestamp, MeterEdge;
    assert AdditionalOverage(Find(Premium), 0, 1001) == Ok(50);
    assert a.outbox + [UsageRow(a.activatedAt, end, 1001, 1, ts)] == [UsageRow(a.activatedAt, end, 1001, 1, ts)];
    assert EnqueueOverage(a, a.activatedAt, end, 1001, 50, a.activatedAt) == Ok([UsageRow(a.activatedAt, end, 1001, 1, ts)]);
  }

  /** An upload at the activation is stamped on the first edge of the first period. */
  lemma FirstTimestamp(activatedAt: int, end: int)
    requires activatedAt + 28 * DAY_MS <= end
    ensures Timestamp(activatedAt, end, Some(StartSecond(activatedAt) * 1000), activatedAt) == MeterEdge(activatedAt)
    ensures MeterEdge(activatedAt) < LineEdge(end) <= MeterEdge(end)
  {
    CeilDivBounds(activatedAt, 60_000);
    CeilDivBounds(StartSecond(activatedAt) * 1000, 60_000);
    CeilDivBounds(end, 60_000);
    CeilDivBounds(end / 1000, 60);
    EdgesAgree(end);
  }

  /** The end of a subscription that the workspace is too large to leave: access is suspended, the plan stays. */
  lemma EndedAndAgain(a: Account, at: int, again: int)
    requires a.plan == Premium && a.pendingPlan == None && a.files == 1001 && a.members == {} && a.invitations == map[]
    requires exists t, start :: a.link == Paying(t, start)
    ensures var b := Step(a, DoCanonical(ENDED, at), at);
            var c := Step(Step(b, DoResetCheckout, at), DoLinkSubscription, at);
            && b.link.meterStartedAt == a.link.meterStartedAt && c.link.meterStartedAt.None?
            && Step(c, DoCanonical(PremiumPaid(again), at), at) == a.(link := Paying(at, again))
  {
    assert PlanFits(a, Free, at) == Some(PlanFileLimit) by { assert PendingAt(map[], at) == {}; }
    var b := Step(a, DoCanonical(ENDED, at), at);
    assert b == a.(link := b.link) && b.link.terminal && b.link.hasSubscription && b.link.enabled && b.link.hasCustomer;
    var c := Step(Step(b, DoResetCheckout, at), DoLinkSubscription, at);
    assert c == a.(link := c.link) && c.link.hasSubscription && c.link.meterStartedAt.None? && !c.link.confirmed;
    TakenOver(c, at, again, at);
  }

  /**
    For every second `again` of the first period, a reachable company whose second subscription
    starts then: its line bills the unit of the first one exactly when that is stamped at or after
    the line's first edge. A minute later the line misses a unit the period metered, and within the
    same minute it bills a unit that was not recorded since its meter start.
  */
  lemma ResubscribedLine(activatedAt: Instant, again: int, at: Instant)
    requires Supported(activatedAt) && MonthIndex(activatedAt) < LAST_MONTH - 1
    requires activatedAt <= again * 1000 <= at < Anniversary(activatedAt, MonthIndex(activatedAt) + 1)
    ensures var trace, k := Resubscribe(activatedAt, again, at), MonthIndex(activatedAt);
            var a, since := Run(Initial(activatedAt, true), trace), Since(Initial(activatedAt, true), trace);
            && Clocked(trace, activatedAt) && a.link.meterStartedAt == Some(again * 1000)
            && MeteredCents(a, k) == 50 && MeteredCents(a, k) - MeteredCents(since, k) == 0
            && LineCents(a, again * 1000, k) == if LineEdge(again * 1000) <= MeterEdge(activatedAt) then 50 else 0
  {
    hide MonthStart, MonthOfDay, TimeInDay, Day, Anniversary, BillingPeriod, PeriodMonth, MonthIndex,
      Initial, Run, Step, Timestamp, MeterEdge, LineEdge, UploadIn, Subscribed, Subscribe;
    var k := MonthIndex(activatedAt);
    var end := FirstPeriod(activatedAt);
    FirstTimestamp(activatedAt, end);
    ResubscribeRun(activatedAt, again, at, end);
    ResubscribeClock(activatedAt, again, at);
    ActivationIsAnniversary(activatedAt);
    var a := OneUnit(Subscribed(activatedAt), end).(link := Paying(at, again));
    SubscribedFacts(activatedAt);
    OneUnitLine(a, end, again * 1000, k);
  }

  lemma SubscribedFacts(activatedAt: Instant)
    ensures var a := Subscribed(activatedAt);
            && a.activatedAt == activatedAt && a.plan == Premium && a.pendingPlan == None
            && a.members == {} && a.invitations == map[] && a.files == 0 && a.periods == map[] && a.outbox == []
            && a.link == Paying(activatedAt, StartSecond(activatedAt)) && PaymentAccess(a, activatedAt)
  {
  }

  lemma OneUnitLine(a: Account, end: int, start: int, k: int)
    requires Anniversary(a.activatedAt, k) == a.activatedAt && Anniversary(a.activatedAt, k + 1) == end
    requires a.outbox == [UsageRow(a.activatedAt, end, 1001, 1, MeterEdge(a.activatedAt))]
    requires a.periods == map[a.activatedAt := PeriodRow(1001, 50, 50)] && MeterEdge(a.activatedAt) < LineEdge(end)
    ensures MeteredCents(a, k) == 50
    ensures LineCents(a, start, k) == if LineEdge(start) <= MeterEdge(a.activatedAt) then 50 else 0
  {
    hide Anniversary, LineEdge, MeterEdge;
    assert a.outbox[..0] == [];
    assert UnitsBetween(a.outbox, LineEdge(start), LineEdge(end)) == if LineEdge(start) <= MeterEdge(a.activatedAt) then 1 else 0;
  }

  lemma FirstPeriod(activatedAt: Instant) returns (end: Instant)
    requires Supported(activatedAt) && MonthIndex(activatedAt) < LAST_MONTH - 1
    ensures end == Anniversary(activatedAt, MonthIndex(activatedAt) + 1) && activatedAt + 28 * DAY_MS <= end
    ensures forall at: Instant :: activatedAt <= at < end ==>
              BillingPeriod(Some(activatedAt), Some(at)) == Ok(Period(Some(activatedAt), Some(end)))
  {
    hide MonthStart, MonthOfDay, TimeInDay, Day, Anniversary, BillingPeriod, PeriodMonth, MonthIndex;
    var k := MonthIndex(activatedAt);
    ActivationIsAnniversary(activatedAt);
    PeriodAtLeast28Days(activatedAt, k);
    PeriodContains(activatedAt, activatedAt, k);
    BillingPeriodIntended(activatedAt, activatedAt);
    end := Anniversary(activatedAt, k + 1);
    forall at: Instant | activatedAt <= at < end
      ensures BillingPeriod(Some(activatedAt), Some(at)) == Ok(Period(Some(activatedAt), Some(end)))
    {
      PeriodContains(activatedAt, at, k);
      BillingPeriodIntended(activatedAt, at);
    }
  }

  lemma ResubscribeClock(activatedAt: Instant, again: int, at: Instant)
    requires activatedAt <= at
    ensures Clocked(Resubscribe(activatedAt, again, at), activatedAt)
  {
  }

  lemma ResubscribeRun(activatedAt: Instant, again: int, at: Instant, end: Instant)
    requires BillingPeriod(Some(activatedAt), Some(activatedAt)) == Ok(Period(Some(activatedAt), Some(end)))
    requires Timestamp(activatedAt, end, Some(StartSecond(activatedAt) * 1000), activatedAt) == MeterEdge(activatedAt) < MeterEdge(end)
    ensures var trace := Resubscribe(activatedAt, again, at);
            var b := OneUnit(Subscribed(activatedAt), end).(link := Paying(at, again));
            Run(Initial(activatedAt, true), trace) == b && Since(Initial(activatedAt, true), trace) == b
  {
    hide BillingPeriod, Timestamp, MeterEdge, Run, Step, Initial, Subscribed, UploadIn, Subscribe;
    var a0, t := Initial(activatedAt, true), activatedAt;
    var a1 := Subscribed(t);
    var a2 := OneUnit(a1, end);
    SubscribeRun(t);
    SubscribedFacts(t);
    UploadDone(a1, 1001, t, t, end, t);
    OneUnitUpload(a1, end, MeterEdge(t));
    var t1 := Subscribe(t);
    var t2 := t1 + [Timed(DoUpload(1001, t), t)];
    var t3 := t2 + [Timed(DoCanonical(ENDED, at), at)];
    var t4 := t3 + [Timed(DoResetCheckout, at)];
    var t5 := t4 + [Timed(DoLinkSubscription, at)];
    var t6 := t5 + [Timed(DoCanonical(PremiumPaid(again), at), at)];
    EndedAndAgain(a2, at, again);
    var a3 := Step(a2, DoCanonical(ENDED, at), at);
    var a4 := Step(a3, DoResetCheckout, at);
    var a5 := Step(a4, DoLinkSubscription, at);
    Then(a0, t1, Timed(DoUpload(1001, t), t), a1, a2);
    Then(a0, t2, Timed(DoCanonical(ENDED, at), at), a2, a3);
    Then(a0, t3, Timed(DoResetCheckout, at), a3, a4);
    Then(a0, t4, Timed(DoLinkSubscription, at), a4, a5);
    Then(a0, t5, Timed(DoCanonical(PremiumPaid(again), at), at), a5, a2.(link := Paying(at, again)));
    MarkedLast(a0, t5, Timed(DoCanonical(PremiumPaid(again), at), at));
    assert Resubscribe(activatedAt, again, at) == t6;
  }

  lemma MarkedLast(a: Account, trace: seq<Timed>, last: Timed)
    requires Run(a, trace + [last]).link.meterStartedAt != Run(a, trace).link.meterStartedAt
    ensures Since(a, trace + [last]) == Run(a, trace + [last])
  {
    hide Run;
    var more := trace + [last];
    assert more[..|more| - 1] == trace && more[..|more|] == more;
  }

  // ----- Activations in the first second of a minute -----

  /** Fill the Premium allowance at activation, then add one file in the last millisecond of the first period. */
  function LastMinuteUpload(activatedAt: Instant, last: Instant): seq<Timed> {
    Subscribe(activatedAt) + [Timed(DoUpload(1000, activatedAt), activatedAt)]
    + [Timed(DoCanonical(PremiumPaid(StartSecond(activatedAt)), last), last)] + [Timed(DoUpload(1, last), last)]
  }

  /** The timestamp of the last upload is the closing edge of its period's invoice line. */
  lemma LastMinuteTimestamp(startsAt: int, endsAt: int)
    requires startsAt + 28 * DAY_MS <= endsAt && endsAt / 1000 % 60 == 0 && endsAt % 1000 != 0
    ensures Timestamp(startsAt, endsAt, Some(StartSecond(startsAt) * 1000), endsAt - 1) == LineEdge(endsAt) < MeterEdge(endsAt)
  {
    EdgesAgree(endsAt);
    var minutes := endsAt / 1000 / 60;
    assert endsAt == 60_000 * minutes + endsAt % 1000;
    assert (endsAt - 1) / 60_000 == minutes;
    CeilDivBounds(startsAt, 60_000);
    CeilDivBounds(StartSecond(startsAt) * 1000, 60_000);
    CeilDivBounds(endsAt / 1000, 60);
    hide CeilDiv;
    assert CeilDiv(endsAt / 1000, 60) == minutes;
  }

  /** Where that run ends: one overage unit, stamped on the edge of the next invoice line. */
  function LostUnit(a: Account, end: int): Account {
    a.(link := Paying(end - 1, StartSecond(a.activatedAt)), files := 1001,
       outbox := [UsageRow(a.activatedAt, end, 1001, 1, LineEdge(end))],
       periods := map[a.activatedAt := PeriodRow(1001, 50, 50)])
  }

  lemma LastMinuteRun(activatedAt: Instant, last: Instant, end: Instant)
    requires activatedAt <= last == end - 1
    requires BillingPeriod(Some(activatedAt), Some(activatedAt)) == Ok(Period(Some(activatedAt), Some(end)))
    requires BillingPeriod(Some(activatedAt), Some(last)) == Ok(Period(Some(activatedAt), Some(end)))
    requires Timestamp(activatedAt, end, Some(StartSecond(activatedAt) * 1000), last) == LineEdge(end) < MeterEdge(end)
    ensures Run(Initial(activatedAt, true), LastMinuteUpload(activatedAt, last)) == LostUnit(Subscribed(activatedAt), end)
    ensures Clocked(LastMinuteUpload(activatedAt, last), activatedAt)
  {
    hide BillingPeriod, Timestamp, MeterEdge, LineEdge, Run, Step, Initial, Subscribed, UploadIn;
    var a0, t := Initial(activatedAt, true), activatedAt;
    var a1 := Subscribed(t);
    SubscribeRun(t);
    SubscribedFacts(t);
    var a2 := a1.(files := 1000, periods := map[t := PeriodRow(1000, 0, 0)]);
    var a3 := a2.(link := Paying(last, StartSecond(t)));
    FillAllowance(a1, t, end);
    UploadDone(a1, 1000, t, t, end, t);
    TakenOver(a2, last, StartSecond(t), last);
    UploadDone(a3, 1, last, t, end, last);
    OneMoreFile(a3, t, end, UsageRow(t, end, 1001, 1, LineEdge(end)));
    var t1 := Subscribe(t);
    var t2 := t1 + [Timed(DoUpload(1000, t), t)];
    var t3 := t2 + [Timed(DoCanonical(PremiumPaid(StartSecond(t)), last), last)];
    Then(a0, t1, Timed(DoUpload(1000, t), t), a1, a2);
    Then(a0, t2, Timed(DoCanonical(PremiumPaid(StartSecond(t)), last), last), a2, a3);
    Then(a0, t3, Timed(DoUpload(1, last), last), a3, LostUnit(a1, end));
  }

  lemma LostUnitIsNotConserved(a: Account, end: int, k: int)
    requires Anniversary(a.activatedAt, k) == a.activatedAt && Anniversary(a.activatedAt, k + 1) == end
    ensures !Conserved(LostUnit(a, end), k)
  {
    hide Anniversary, LineEdge;
    var rows := LostUnit(a, end).outbox;
    assert rows[..0] == [];
    assert UnitsBetween(rows, LineEdge(a.activatedAt), LineEdge(end)) == 0;
  }

  /** A clocked run that the code can make: an upload in the last millisecond of the first period misses its line. */
  lemma LastMinuteUploadIsLost(activatedAt: Instant)
    requires Supported(activatedAt) && !WholeSecondLines(activatedAt) && MonthIndex(activatedAt) < LAST_MONTH - 1
    ensures exists last: Instant ::
              && activatedAt <= last == Anniversary(activatedAt, MonthIndex(activatedAt) + 1) - 1
              && Clocked(LastMinuteUpload(activatedAt, last), activatedAt)
              && !Conserved(Run(Initial(activatedAt, true), LastMinuteUpload(activatedAt, last)), MonthIndex(activatedAt))
  {
    hide MonthStart, MonthOfDay, TimeInDay, Day, Anniversary, BillingPeriod, PeriodMonth, MonthIndex,
      LostUnit, Conserved, Initial, LastMinuteUpload, Run, Timestamp, MeterEdge, LineEdge, Subscribed;
    var k := MonthIndex(activatedAt);
    ActivationIsAnniversary(activatedAt);
    var end := FirstPeriod(activatedAt);
    var last: Instant := end - 1;
    AnniversaryClock(activatedAt, k + 1);
    LastMinuteTimestamp(activatedAt, end);
    LastMinuteRun(activatedAt, last, end);
    SubscribedFacts(activatedAt);
    LostUnitIsNotConserved(Subscribed(activatedAt), end, k);
  }

  lemma FillAllowance(b: Account, startsAt: int, endsAt: int)
    requires b.plan == Premium && b.pendingPlan == None && b.files == 0 && b.periods == map[] && b.outbox == []
    ensures UploadIn(b, 1000, startsAt, endsAt, startsAt)
            == Ok(b.(files := 1000, periods := map[startsAt := PeriodRow(1000, 0, 0)]))
  {
  }

  lemma OneMoreFile(c: Account, startsAt: int, endsAt: int, row: UsageRow)
    requires c.plan == Premium && c.pendingPlan == None && c.files == 1000 && c.outbox == []
    requires c.periods == map[startsAt := PeriodRow(1000, 0, 0)] && c.link == Paying(endsAt - 1, StartSecond(startsAt))
    requires Timestamp(startsAt, endsAt, Some(StartSecond(startsAt) * 1000), endsAt - 1) == LineEdge(endsAt) < MeterEdge(endsAt)
    requires row == UsageRow(startsAt, endsAt, 1001, 1, LineEdge(endsAt))
    ensures UploadIn(c, 1, startsAt, endsAt, endsAt - 1)
            == Ok(c.(files := 1001, outbox := [row], periods := map[startsAt := PeriodRow(1001, 50, 50)]))
  {
    hide Timestamp, MeterEdge, LineEdge;
    assert AdditionalOverage(Find(Premium), 1000, 1001) == Ok(50);
    assert c.outbox + [row] == [row];
    assert EnqueueOverage(c, startsAt, endsAt, 1001, 50, endsAt - 1) == Ok([row]);
    assert map[startsAt := PeriodRow(1000, 0, 0)][startsAt := PeriodRow(1001, 50, 50)] == map[startsAt := PeriodRow(1001, 50, 50)];
  }

  /**
    Lines of whole periods match the recorded usage in all clocked runs exactly for activations with
    nonzero seconds or zero milliseconds.
  */
  lemma ConservationExactly(activatedAt: Instant)
    requires Supported(activatedAt) && MonthIndex(activatedAt) < LAST_MONTH - 1
    ensures (forall trace: seq<Timed>, k: int ::
               Clocked(trace, activatedAt) ==> Conserved(Run(Initial(activatedAt, true), trace), k))
            <==> WholeSecondLines(activatedAt)
  {
    hide Supported, WholeSecondLines, Conserved, Run, LastMinuteUpload, Initial, MonthIndex, Clocked, Anniversary;
    if WholeSecondLines(activatedAt) {
      forall trace: seq<Timed>, k: int | Clocked(trace, activatedAt)
        ensures Conserved(Run(Initial(activatedAt, true), trace), k)
      {
        InvoiceMatchesPeriod(activatedAt, true, trace, k);
      }
    } else {
      LastMinuteUploadIsLost(activatedAt);
    }
  }

  /** No reachable period row makes the bill inconsistent: it can only leave the range of safe integers. */
  lemma ReachableRowsAreBillable(activatedAt: Instant, enabled: bool, trace: seq<Timed>, p: int, employees: int)
    requires Supported(activatedAt) && SafeCount(employees)
    ensures var a := Run(Initial(activatedAt, enabled), trace);
            var row := RowAt(a, p);
            SafeCount(row.uploaded) && SafeCount(row.overageCents) ==>
              Calculate(a.plan, row.uploaded, row.overageCents, employees) != Err(InvalidAccounting)
  {
    hide Supported, Run, RowOk;
    var a := Run(Initial(activatedAt, enabled), trace);
    RunKeepsAccounting(activatedAt, enabled, trace);
    var row := RowAt(a, p);
    assert ConsistentRow(row.uploaded, row.overageCents);
    if SafeCount(row.uploaded) && SafeCount(row.overageCents) {
      CalculateAcceptsConsistentRows(a.plan, row.uploaded, row.overageCents, employees);
    }
  }

  /** Outbox identifiers never collide, so the unique index never rejects an upload. */
  lemma IdentifiersAreUnique(activatedAt: Instant, enabled: bool, trace: seq<Timed>, i: nat, j: nat)
    requires Supported(activatedAt)
    ensures var rows := Run(Initial(activatedAt, enabled), trace).outbox;
            i < j < |rows| ==> (rows[i].startsAt, rows[i].sequence) != (rows[j].startsAt, rows[j].sequence)
  {
    hide Supported, Run, RowOk;
    RunKeepsAccounting(activatedAt, enabled, trace);
  }
}
