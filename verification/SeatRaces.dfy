/**
  Seats under overlapping transactions. A transaction that counts seats takes the subscription lock,
  so no two of them overlap, but a resend takes none: it may commit between the snapshot a counting
  transaction reads and that transaction's commit, and its clock may have been read long before.
*/
module SeatRaces {
  import opened Wrappers
  import opened Calendar
  import opened Plans
  import opened A = Account
  import opened Entitlements

  /** A committed transaction; its snapshot was taken `lag` commits earlier. */
  datatype Commit = Commit(action: Action, now: int, lag: nat)

  /** Transactions that take the lock and count seats. */
  predicate Counts(action: Action) {
    action.DoInvite? || action.DoAccept? || action.DoChangePlan? || action.DoRequestPlan? || action.DoCanonical?
  }

  /** Transactions that do not touch the subscription document. */
  predicate LockFree(action: Action) {
    action.DoResend? || action.DoRevoke? || action.DoPurge? || action.DoDeleteMember? || action.DoDeleteFile?
  }

  /** The invitations a transaction has written, given those it saw and those it left. */
  function Written(seen: map<nat, Invitation>, after: map<nat, Invitation>): set<nat> {
    set i | i in after && (i !in seen || after[i] != seen[i])
  }

  predicate Unchanged(current: map<nat, Invitation>, seen: map<nat, Invitation>, written: set<nat>) {
    forall i :: i in written ==> (i in current <==> i in seen) && (i in seen && i in current ==> current[i] == seen[i])
  }

  /** What a transaction that saw other invitations commits; a write conflict leaves the account as it is. */
  function Merged(a: A.Account, seen: map<nat, Invitation>, action: Action, now: int): A.Account {
    var b := Step(a.(invitations := seen), action, now);
    var written := Written(seen, b.invitations);
    if !Unchanged(a.invitations, seen, written) then a
    else
      b.(invitations := map i | i in a.invitations.Keys + written ::
           if i in written && i in b.invitations then b.invitations[i] else a.invitations[i])
  }

  /** Nobody else has taken the lock since the snapshot of the last commit. */
  predicate KeepsLock(trace: seq<Commit>)
    requires trace != []
  {
    var n := |trace| - 1;
    trace[n].lag <= n && forall j :: n - trace[n].lag <= j < n ==> LockFree(trace[j].action)
  }

  predicate Serial(c: Commit) {
    c.lag == 0 || !Counts(c.action)
  }

  /** A run with overlaps; a counting transaction conflicts with any other that took the lock since its snapshot. */
  function Race(a: A.Account, trace: seq<Commit>): A.Account {
    if trace == [] then a
    else
      var n := |trace| - 1;
      var last, before := trace[n], Race(a, trace[..n]);
      if Serial(last) then Step(before, last.action, last.now)
      else if KeepsLock(trace) then
        Merged(before, Race(a, trace[..n - last.lag]).invitations, last.action, last.now)
      else before
  }

  /**
    Clocks never run backwards. A resend commits at most `resendDelay` after its reading; a counting
    transaction reads the clock at most `readingDelay` after its snapshot, which precedes commit n - lag.
  */
  predicate Timely(trace: seq<Commit>, from: int, resendDelay: nat, readingDelay: nat) {
    && (forall i :: 0 <= i < |trace| ==> from <= trace[i].now && NotFromTheFuture(trace[i].action, trace[i].now))
    && (forall i, j :: 0 <= i < j < |trace| ==> trace[i].now <= trace[j].now)
    && (forall i :: 0 <= i < |trace| && trace[i].action.DoResend? ==> trace[i].now <= trace[i].action.at + resendDelay)
    && (forall i :: 0 <= i < |trace| && Counts(trace[i].action) && trace[i].lag <= i ==>
          Reading(trace[i].action).value <= trace[i - trace[i].lag].now + readingDelay)
  }

  predicate RaceFits(a: A.Account, trace: seq<Commit>) {
    forall i :: 0 <= i < |trace| ==> Fits(Race(a, trace[..i + 1]), trace[i].now)
  }

  // ----- Prompt clocks -----

  /** What no lock guards does not bring an invitation back that had expired before. */
  lemma LockFreeStep(a: A.Account, action: Action, now: int, at: int)
    requires LockFree(action) && at <= now && (action.DoResend? ==> action.at == now)
    ensures PendingAt(Step(a, action, now).invitations, at) <= PendingAt(a.invitations, at)
  {
  }

  /** Every invitation that is live at the commit was counted in the snapshot. */
  lemma {:induction false} LiveWasSeen(a: A.Account, trace: seq<Commit>, from: int, m: nat, n: nat, at: int)
    requires m <= n <= |trace| && Timely(trace, from, 0, 0)
    requires forall j :: m <= j < n ==> LockFree(trace[j].action) && at <= trace[j].now
    ensures PendingAt(Race(a, trace[..n]).invitations, at) <= PendingAt(Race(a, trace[..m]).invitations, at)
    decreases n
  {
    hide Step, PendingAt;
    if m < n {
      LiveWasSeen(a, trace, from, m, n - 1, at);
      assert trace[..n][..n - 1] == trace[..n - 1];
      LockFreeStep(Race(a, trace[..n - 1]), trace[n - 1].action, trace[n - 1].now, at);
    }
  }

  lemma InviteMerged(a: A.Account, seen: map<nat, Invitation>, action: Action, now: int)
    requires Fits(a, now) && action.DoInvite? && action.at <= now
    requires PendingAt(a.invitations, now) <= PendingAt(seen, action.at)
    ensures Fits(Merged(a, seen, action, now), now)
  {
    var s, t := a.(invitations := seen), Merged(a, seen, action, now);
    FitsBySeatLimit(a, now);
    FitsBySeatLimit(t, now);
    hide Fits, SeatsFit, FilesFit, Find, PaymentAccess;
    var b := Invite(s, action.id, action.email, action.at, action.open);
    if b.Ok? {
      assert PendingAt(t.invitations, now) <= PendingAt(seen, action.at) + {action.id};
      SubsetSize(PendingAt(t.invitations, now), PendingAt(seen, action.at) + {action.id});
    } else {
      assert t.invitations == a.invitations;
    }
  }

  lemma AcceptMerged(a: A.Account, seen: map<nat, Invitation>, action: Action, now: int)
    requires Fits(a, now) && action.DoAccept? && action.at <= now
    requires PendingAt(a.invitations, now) <= PendingAt(seen, action.at)
    ensures Fits(Merged(a, seen, action, now), now)
  {
    var s, t := a.(invitations := seen), Merged(a, seen, action, now);
    FitsBySeatLimit(a, now);
    FitsBySeatLimit(t, now);
    hide Fits, SeatsFit, FilesFit, Find, PaymentAccess;
    var b := Accept(s, action.id, action.at, action.open);
    if b.Ok? && t != a {
      AcceptedLeaves(a, seen, action, now);
      SubsetSize(PendingAt(t.invitations, now), PendingAt(seen, action.at) - {action.id});
    } else {
      assert t.invitations == a.invitations;
    }
  }

  lemma AcceptedLeaves(a: A.Account, seen: map<nat, Invitation>, action: Action, now: int)
    requires action.DoAccept? && Accept(a.(invitations := seen), action.id, action.at, action.open).Ok?
    requires Merged(a, seen, action, now) != a && PendingAt(a.invitations, now) <= PendingAt(seen, action.at)
    ensures action.id in PendingAt(seen, action.at)
    ensures PendingAt(Merged(a, seen, action, now).invitations, now) <= PendingAt(seen, action.at) - {action.id}
  {
    hide Capacity;
  }

  /** A plan that fits what was seen fits what is there. */
  lemma SeenFits(a: A.Account, seen: map<nat, Invitation>, code: PlanCode, at: int, now: int)
    requires PendingAt(a.invitations, now) <= PendingAt(seen, at)
    ensures PlanFits(a.(invitations := seen), code, at).None? ==> SeatsFit(a, code, now) && FilesFit(code, a.files)
  {
    SubsetSize(PendingAt(a.invitations, now), PendingAt(seen, at));
  }

  /** Plan changes write no invitation. */
  lemma PlanStep(a: A.Account, seen: map<nat, Invitation>, action: Action, now: int)
    requires action.DoChangePlan? || action.DoRequestPlan? || action.DoCanonical?
    ensures var b := Step(a.(invitations := seen), action, now);
            b.invitations == seen && b.members == a.members && b.files == a.files &&
            Merged(a, seen, action, now) == b.(invitations := a.invitations)
  {
    PlanKeeps(a.(invitations := seen), action, now);
    hide Step;
    assert Written(seen, seen) == {};
    assert (map i | i in a.invitations.Keys + {} :: a.invitations[i]) == a.invitations;
  }

  lemma PlanKeeps(a: A.Account, action: Action, now: int)
    requires action.DoChangePlan? || action.DoRequestPlan? || action.DoCanonical?
    ensures var b := Step(a, action, now); b.invitations == a.invitations && b.members == a.members && b.files == a.files
  {
    hide PlanFits;
  }

  /** A plan change sets the plans only to what it found to fit. */
  lemma PlansOf(a: A.Account, action: Action, now: int)
    requires action.DoChangePlan? || action.DoRequestPlan? || action.DoCanonical?
    ensures var b := Step(a, action, now);
            var at := Reading(action).value;
            && (b.plan == a.plan || PlanFits(a, b.plan, at).None?)
            && (b.pendingPlan == a.pendingPlan || b.pendingPlan == None || PlanFits(a, b.pendingPlan.value, at).None?)
  {
    hide PlanFits;
  }

  lemma PlanMerged(a: A.Account, seen: map<nat, Invitation>, action: Action, now: int)
    requires Fits(a, now) && (action.DoChangePlan? || action.DoRequestPlan? || action.DoCanonical?)
    requires PendingAt(a.invitations, now) <= PendingAt(seen, Reading(action).value)
    ensures Fits(Merged(a, seen, action, now), now)
  {
    var at := Reading(action).value;
    var b := Step(a.(invitations := seen), action, now);
    PlanStep(a, seen, action, now);
    PlansOf(a.(invitations := seen), action, now);
    hide Step, PlanFits, PendingAt, Merged;
    SeenFits(a, seen, b.plan, at, now);
    if b.pendingPlan.Some? { SeenFits(a, seen, b.pendingPlan.value, at, now); }
    SameWorkspaceFits(a, Merged(a, seen, action, now), now);
  }

  lemma MergedFits(a: A.Account, seen: map<nat, Invitation>, action: Action, now: int)
    requires Fits(a, now) && Counts(action) && Reading(action).value <= now
    requires PendingAt(a.invitations, now) <= PendingAt(seen, Reading(action).value)
    ensures Fits(Merged(a, seen, action, now), now)
  {
    hide Fits, Merged, PendingAt;
    if action.DoInvite? {
      InviteMerged(a, seen, action, now);
    } else if action.DoAccept? {
      AcceptMerged(a, seen, action, now);
    } else {
      PlanMerged(a, seen, action, now);
    }
  }

  lemma PromptIsNoOverbooking(a: A.Account, action: Action, now: int)
    requires action.DoResend? ==> action.at == now
    ensures !Overbooks(a, action, now)
  {
  }

  lemma PendingLater(invitations: map<nat, Invitation>, at: int, now: int)
    requires at <= now
    ensures PendingAt(invitations, now) <= PendingAt(invitations, at)
  {
  }

  /** The last commit of a prompt run. */
  lemma LastRaceFits(a: A.Account, trace: seq<Commit>, from: int)
    requires trace != [] && Timely(trace, from, 0, 0)
    requires Fits(Race(a, trace[..|trace| - 1]), trace[|trace| - 1].now)
    ensures Fits(Race(a, trace), trace[|trace| - 1].now)
  {
    hide Fits, Step, Merged, PendingAt, Overbooks;
    var n := |trace| - 1;
    var last, before := trace[n], Race(a, trace[..n]);
    if Serial(last) {
      PromptIsNoOverbooking(before, last.action, last.now);
      StepFits(before, last.action, last.now);
    } else if KeepsLock(trace) {
      OverlapFits(a, trace, from);
    }
  }

  lemma OverlapFits(a: A.Account, trace: seq<Commit>, from: int)
    requires trace != [] && Timely(trace, from, 0, 0) && !Serial(trace[|trace| - 1]) && KeepsLock(trace)
    requires Fits(Race(a, trace[..|trace| - 1]), trace[|trace| - 1].now)
    ensures var n := |trace| - 1;
            var last := trace[n];
            Fits(Merged(Race(a, trace[..n]), Race(a, trace[..n - last.lag]).invitations, last.action, last.now), last.now)
  {
    hide Fits, Step, Merged, PendingAt, Race, LockFree;
    var n := |trace| - 1;
    var last, before := trace[n], Race(a, trace[..n]);
    var m, at := n - last.lag, Reading(last.action).value;
    assert at <= trace[n - trace[n].lag].now;
    forall j | m <= j < n ensures LockFree(trace[j].action) && at <= trace[j].now {
      if m < j { assert trace[m].now <= trace[j].now; }
    }
    LiveWasSeen(a, trace, from, m, n, at);
    PendingLater(before.invitations, at, last.now);
    MergedFits(before, Race(a, trace[..m]).invitations, last.action, last.now);
  }

  lemma TimelyPrefix(trace: seq<Commit>, from: int, d: nat, l: nat)
    requires trace != [] && Timely(trace, from, d, l)
    ensures Timely(trace[..|trace| - 1], from, d, l)
  {
    hide Reading;
  }

  /** With readings at the snapshot and resends at their own reading, no overlap outgrows the plan. */
  lemma {:induction false} PromptRaceFits(a: A.Account, trace: seq<Commit>, from: int)
    requires Fits(a, from) && Timely(trace, from, 0, 0)
    ensures RaceFits(a, trace)
    ensures trace != [] ==> Fits(Race(a, trace), trace[|trace| - 1].now)
    decreases |trace|
  {
    hide Fits, Race, Timely, RaceFits;
    if trace == [] {
      NoRaceFits(a);
    } else {
      var n := |trace| - 1;
      var init, last := trace[..n], trace[n];
      TimelyPrefix(trace, from, 0, 0);
      TimelyClock(trace, from, 0, 0);
      PromptRaceFits(a, init, from);
      if n == 0 {
        NoRace(a);
        FitsLater(a, from, last.now);
      } else {
        FitsLater(Race(a, init), init[n - 1].now, last.now);
      }
      LastRaceFits(a, trace, from);
      OneMoreFits(a, trace);
    }
  }

  lemma TimelyClock(trace: seq<Commit>, from: int, d: nat, l: nat)
    requires trace != [] && Timely(trace, from, d, l)
    ensures var n := |trace| - 1;
            from <= trace[n].now && (n > 0 ==> trace[..n][n - 1].now <= trace[n].now)
  {
    hide Reading, Counts, NotFromTheFuture;
  }

  lemma OneMoreFits(a: A.Account, trace: seq<Commit>)
    requires trace != [] && RaceFits(a, trace[..|trace| - 1]) && Fits(Race(a, trace), trace[|trace| - 1].now)
    ensures RaceFits(a, trace)
  {
    hide Fits, Race;
    var init := trace[..|trace| - 1];
    forall i | 0 <= i < |trace| ensures Fits(Race(a, trace[..i + 1]), trace[i].now) {
      if i < |init| {
        assert trace[..i + 1] == init[..i + 1];
      } else {
        assert trace[..i + 1] == trace;
      }
    }
  }

  lemma NoRaceFits(a: A.Account)
    ensures RaceFits(a, [])
  {
  }

  lemma NoRace(a: A.Account)
    ensures Race(a, []) == a
  {
  }

  // ----- Delays -----

  /** Basic, with one invitation that expires at INVITATION_TTL_MS. */
  function OneInvitation(enabled: bool, expiresAt: int, lastSentAt: int): A.Account {
    Initial(0, enabled).(plan := Basic, invitations := map[0 := Invitation(0, Pending, expiresAt, lastSentAt)])
  }

  lemma RaceThen(a: A.Account, trace: seq<Commit>, next: Commit, b: A.Account, c: A.Account)
    requires Race(a, trace) == b && next.lag == 0 && Step(b, next.action, next.now) == c
    ensures Race(a, trace + [next]) == c
  {
    assert (trace + [next])[..|trace|] == trace;
  }

  lemma TimelyThen(trace: seq<Commit>, next: Commit, d: nat, l: nat)
    requires Timely(trace, 0, d, l) && next.lag <= |trace| && next.now >= 0 && NotFromTheFuture(next.action, next.now)
    requires trace != [] ==> trace[|trace| - 1].now <= next.now
    requires next.action.DoResend? ==> next.now <= next.action.at + d
    requires Counts(next.action) ==>
               Reading(next.action).value <= (if next.lag == 0 then next.now else trace[|trace| - next.lag].now) + l
    ensures Timely(trace + [next], 0, d, l)
  {
    hide Reading;
    var all := trace + [next];
    assert forall i :: 0 <= i < |trace| ==> all[i] == trace[i];
  }

  function Begin(): seq<Commit> {
    [] + [Commit(DoChangePlan(Basic, 0), 0, 0)] + [Commit(DoInvite(0, 0, 0, true), 0, 0)]
  }

  lemma BeginTimely(d: nat, l: nat)
    ensures Timely(Begin(), 0, d, l) && Begin() != [] && Begin()[|Begin()| - 1].now == 0
  {
    hide Timely;
    var t1 := [] + [Commit(DoChangePlan(Basic, 0), 0, 0)];
    NothingTimely(d, l);
    TimelyThen([], Commit(DoChangePlan(Basic, 0), 0, 0), d, l);
    TimelyThen(t1, Commit(DoInvite(0, 0, 0, true), 0, 0), d, l);
  }

  lemma NothingTimely(d: nat, l: nat)
    ensures Timely([], 0, d, l)
  {
  }

  lemma BeginRun()
    ensures Race(Initial(0, false), Begin()) == OneInvitation(false, INVITATION_TTL_MS, 0)
  {
    var a := Initial(0, false);
    var b := a.(plan := Basic);
    assert PendingAt(map[], 0) == {};
    assert Step(a, DoChangePlan(Basic, 0), 0) == b;
    assert ExpireStale(map[], 0, 0) == map[];
    assert Step(b, DoInvite(0, 0, 0, true), 0) == OneInvitation(false, INVITATION_TTL_MS, 0);
    hide Step;
    var t1 := [] + [Commit(DoChangePlan(Basic, 0), 0, 0)];
    RaceThen(a, [], Commit(DoChangePlan(Basic, 0), 0, 0), a, b);
    RaceThen(a, t1, Commit(DoInvite(0, 0, 0, true), 0, 0), b, OneInvitation(false, INVITATION_TTL_MS, 0));
  }

  /** One millisecond: the invitation expires, the company downgrades to Free, and the resend revives it. */
  function LateResend(): seq<Commit> {
    var t := INVITATION_TTL_MS;
    Begin() + [Commit(DoChangePlan(Free, t), t, 0)] + [Commit(DoResend(0, t - 1), t, 0)]
  }

  lemma LateResendOverbooks()
    ensures var trace, t := LateResend(), INVITATION_TTL_MS;
            !Fits(Race(Initial(0, false), trace), t)
  {
    var t := INVITATION_TTL_MS;
    var a, b := Initial(0, false), OneInvitation(false, t, 0);
    var c := b.(plan := Free);
    var d := c.(invitations := map[0 := Invitation(0, Pending, t - 1 + t, t - 1)]);
    LateResendSteps(b, c, d);
    hide Step, Fits, Race, Initial, OneInvitation, Begin;
    BeginRun();
    var t3 := Begin() + [Commit(DoChangePlan(Free, t), t, 0)];
    RaceThen(a, Begin(), Commit(DoChangePlan(Free, t), t, 0), b, c);
    RaceThen(a, t3, Commit(DoResend(0, t - 1), t, 0), c, d);
  }

  lemma LateResendIsTimely()
    ensures var trace, t := LateResend(), INVITATION_TTL_MS;
            trace != [] && trace[|trace| - 1].now == t && Timely(trace, 0, 1, 0)
  {
    hide Timely, Begin;
    var t := INVITATION_TTL_MS;
    var t3 := Begin() + [Commit(DoChangePlan(Free, t), t, 0)];
    BeginTimely(1, 0);
    TimelyThen(Begin(), Commit(DoChangePlan(Free, t), t, 0), 1, 0);
    TimelyThen(t3, Commit(DoResend(0, t - 1), t, 0), 1, 0);
  }

  lemma LateResendSteps(b: A.Account, c: A.Account, d: A.Account)
    requires var t := INVITATION_TTL_MS;
             && b == OneInvitation(false, t, 0) && c == b.(plan := Free)
             && d == c.(invitations := map[0 := Invitation(0, Pending, t - 1 + t, t - 1)])
    ensures var t := INVITATION_TTL_MS;
            Step(b, DoChangePlan(Free, t), t) == c && Step(c, DoResend(0, t - 1), t) == d && !Fits(d, t)
  {
    var t := INVITATION_TTL_MS;
    assert PendingAt(b.invitations, t) == {};
    assert 0 in PendingAt(d.invitations, t);
  }

  /**
    The downgrade's snapshot is taken, the invitation is resent at once and in time, and then the
    downgrade reads the clock: in its snapshot the invitation has just expired.
  */
  function LateReading(): seq<Commit> {
    var t := INVITATION_TTL_MS;
    Begin() + [Commit(DoSwitch(true), 0, 0)] + [Commit(DoResend(0, t - 1), t - 1, 0)] + [Commit(DoRequestPlan(Free, t), t, 1)]
  }

  lemma LateReadingIsTimely()
    ensures var trace, t := LateReading(), INVITATION_TTL_MS;
            trace != [] && trace[|trace| - 1].now == t && Timely(trace, 0, 0, 1)
  {
    hide Timely, Begin;
    var t := INVITATION_TTL_MS;
    var t3 := Begin() + [Commit(DoSwitch(true), 0, 0)];
    var t4 := t3 + [Commit(DoResend(0, t - 1), t - 1, 0)];
    BeginTimely(0, 1);
    TimelyThen(Begin(), Commit(DoSwitch(true), 0, 0), 0, 1);
    TimelyThen(t3, Commit(DoResend(0, t - 1), t - 1, 0), 0, 1);
    TimelyThen(t4, Commit(DoRequestPlan(Free, t), t, 1), 0, 1);
  }

  lemma LateReadingOverbooks()
    ensures !Fits(Race(Initial(0, false), LateReading()), INVITATION_TTL_MS)
  {
    var t := INVITATION_TTL_MS;
    var a, b, c := Initial(0, false), OneInvitation(false, t, 0), OneInvitation(true, t, 0);
    var d := OneInvitation(true, t - 1 + t, t - 1);
    LateReadingSteps(b, c, d);
    LateRequest(c.invitations, d);
    hide Step, Merged, Fits, Race, Initial, OneInvitation;
    BeginRun();
    var t3 := Begin() + [Commit(DoSwitch(true), 0, 0)];
    var t4 := t3 + [Commit(DoResend(0, t - 1), t - 1, 0)];
    RaceThen(a, Begin(), Commit(DoSwitch(true), 0, 0), b, c);
    RaceThen(a, t3, Commit(DoResend(0, t - 1), t - 1, 0), c, d);
    RaceOverlaps(a, t3, Commit(DoResend(0, t - 1), t - 1, 0), Commit(DoRequestPlan(Free, t), t, 1));
  }

  lemma RaceOverlaps(a: A.Account, trace: seq<Commit>, between: Commit, last: Commit)
    requires Counts(last.action) && last.lag == 1 && LockFree(between.action)
    ensures Race(a, trace + [between] + [last]) ==
            Merged(Race(a, trace + [between]), Race(a, trace).invitations, last.action, last.now)
  {
    hide Step, Merged;
    var all := trace + [between] + [last];
    assert all[..|trace| + 1] == trace + [between] && all[..|trace|] == trace && all[|trace|] == between;
  }

  lemma LateReadingSteps(b: A.Account, c: A.Account, d: A.Account)
    requires var t := INVITATION_TTL_MS;
             b == OneInvitation(false, t, 0) && c == OneInvitation(true, t, 0) && d == OneInvitation(true, t - 1 + t, t - 1)
    ensures var t := INVITATION_TTL_MS; Step(b, DoSwitch(true), 0) == c && Step(c, DoResend(0, t - 1), t - 1) == d
  {
  }

  lemma LateRequest(seen: map<nat, Invitation>, a: A.Account)
    requires seen == OneInvitation(true, INVITATION_TTL_MS, 0).invitations
    requires a == OneInvitation(true, INVITATION_TTL_MS - 1 + INVITATION_TTL_MS, INVITATION_TTL_MS - 1)
    ensures !Fits(Merged(a, seen, DoRequestPlan(Free, INVITATION_TTL_MS), INVITATION_TTL_MS), INVITATION_TTL_MS)
  {
    var t := INVITATION_TTL_MS;
    PlanStep(a, seen, DoRequestPlan(Free, t), t);
    assert PendingAt(seen, t) == {};
    assert Step(a.(invitations := seen), DoRequestPlan(Free, t), t).plan == Free;
    assert 0 in PendingAt(a.invitations, t);
  }

  lemma MoreDelay(trace: seq<Commit>, from: int, d: nat, l: nat, more: nat, longer: nat)
    requires Timely(trace, from, d, l) && d <= more && l <= longer
    ensures Timely(trace, from, more, longer)
  {
  }

  /**
    In all runs of all companies, with every overlap the lock permits, the workspace fits its current
    and queued plan after every commit, exactly when resends commit at their own clock reading and
    counting transactions do not read the clock after taking their snapshot.
  */
  lemma RacesFitExactly(resendDelay: nat, readingDelay: nat)
    ensures (forall activatedAt: Instant, enabled, trace, from ::
               Timely(trace, from, resendDelay, readingDelay) ==> RaceFits(Initial(activatedAt, enabled), trace))
            <==> resendDelay == 0 && readingDelay == 0
  {
    hide Fits, Race, Timely, Initial, LateResend, LateReading;
    if resendDelay == 0 && readingDelay == 0 {
      forall activatedAt: Instant, enabled, trace, from | Timely(trace, from, resendDelay, readingDelay)
        ensures RaceFits(Initial(activatedAt, enabled), trace)
      {
        InitialFits(activatedAt, enabled, from);
        PromptRaceFits(Initial(activatedAt, enabled), trace, from);
      }
    } else {
      LateResendOverbooks();
      LateResendIsTimely();
      LateReadingOverbooks();
      LateReadingIsTimely();
      var trace := if resendDelay > 0 then LateResend() else LateReading();
      if resendDelay > 0 {
        MoreDelay(trace, 0, 1, 0, resendDelay, readingDelay);
      } else {
        MoreDelay(trace, 0, 0, 1, resendDelay, readingDelay);
      }
      NotAlways(Initial(0, false), trace);
    }
  }

  lemma NotAlways(a: A.Account, trace: seq<Commit>)
    requires trace != [] && !Fits(Race(a, trace), trace[|trace| - 1].now)
    ensures !RaceFits(a, trace)
  {
    hide Fits, Race;
    assert trace[..|trace| - 1 + 1] == trace;
  }
}
