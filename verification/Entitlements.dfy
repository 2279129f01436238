/** The workspace fits its plan and any queued plan, in every run without an overbooking resend. */
module Entitlements {
  import opened Wrappers
  import opened Calendar
  import opened Plans
  import opened Billing
  import opened Account

  // ----- Counting seats -----

  lemma PendingShrinks(invitations: map<nat, Invitation>, t: int, later: int)
    requires t <= later
    ensures PendingAt(invitations, later) <= PendingAt(invitations, t)
    ensures |PendingAt(invitations, later)| <= |PendingAt(invitations, t)|
  {
    SubsetSize(PendingAt(invitations, later), PendingAt(invitations, t));
  }

  /** Seats fit the plan and the queued plan exactly when they stay within the lower maximum. */
  lemma FitsBySeatLimit(a: Account, t: int)
    ensures Fits(a, t) <==>
            (SeatLimit(a).Some? ==> Seats(a, t) <= SeatLimit(a).value) &&
            FilesFit(a.plan, a.files) && (a.pendingPlan.Some? ==> FilesFit(a.pendingPlan.value, a.files))
  {
  }

  lemma FitsLater(a: Account, t: int, later: int)
    requires Fits(a, t) && t <= later
    ensures Fits(a, later)
  {
    PendingShrinks(a.invitations, t, later);
  }

  // ----- One step -----

  /** The one way to outgrow the plan: a resend whose stale reading revives an expired invitation for a taken seat. */
  predicate Overbooks(a: Account, action: Action, now: int) {
    && action.DoResend?
    && Resendable(a, action.id, action.at)
    && a.invitations[action.id].expiresAt <= now < action.at + INVITATION_TTL_MS
    && SeatLimit(a).Some? && Seats(a, now) >= SeatLimit(a).value
  }

  lemma InviteFits(a: Account, id: nat, email: nat, at: int, open: bool, now: int)
    requires Fits(a, now) && at <= now && Invite(a, id, email, at, open).Ok?
    ensures Fits(Invite(a, id, email, at, open).value, now)
  {
    var b := Invite(a, id, email, at, open).value;
    PendingShrinks(a.invitations, at, now);
    assert PendingAt(b.invitations, now) <= PendingAt(a.invitations, now) + {id};
    SubsetSize(PendingAt(b.invitations, now), PendingAt(a.invitations, now) + {id});
    FitsBySeatLimit(a, now);
    FitsBySeatLimit(b, now);
  }

  lemma ResendFits(a: Account, id: nat, at: int, now: int)
    requires Fits(a, now) && at <= now
    ensures Fits(Resend(a, id, at), now) <==> !Overbooks(a, DoResend(id, at), now)
  {
    var b := Resend(a, id, at);
    FitsBySeatLimit(a, now);
    FitsBySeatLimit(b, now);
    if Resendable(a, id, at) {
      if at + INVITATION_TTL_MS > now {
        assert PendingAt(b.invitations, now) == PendingAt(a.invitations, now) + {id};
      } else {
        assert PendingAt(b.invitations, now) == PendingAt(a.invitations, now) - {id};
      }
    }
  }

  lemma AcceptFits(a: Account, id: nat, at: int, open: bool, now: int)
    requires Fits(a, now) && at <= now && Accept(a, id, at, open).Ok?
    ensures Fits(Accept(a, id, at, open).value, now)
  {
    var b := Accept(a, id, at, open).value;
    assert PendingAt(b.invitations, at) == PendingAt(a.invitations, at) - {id};
    PendingShrinks(b.invitations, at, now);
    FitsBySeatLimit(a, now);
    FitsBySeatLimit(b, now);
  }

  lemma FewerSeatsFit(a: Account, b: Account, now: int)
    requires Fits(a, now) && b.plan == a.plan && b.files <= a.files
    requires b.pendingPlan == a.pendingPlan || b.pendingPlan == None
    requires b.members <= a.members && PendingAt(b.invitations, now) <= PendingAt(a.invitations, now)
    ensures Fits(b, now)
  {
    SubsetSize(b.members, a.members);
    SubsetSize(PendingAt(b.invitations, now), PendingAt(a.invitations, now));
  }

  lemma UploadFits(a: Account, quantity: nat, at: Instant, now: int)
    requires Fits(a, now)
    ensures Fits(OrElse(Upload(a, quantity, at), a), now)
  {
    hide BillingPeriod, AdditionalOverage, EnqueueOverage;
    FitsBySeatLimit(a, now);
    FitsBySeatLimit(OrElse(Upload(a, quantity, at), a), now);
  }

  /** A plan that fits at an older reading fits now. */
  lemma PlanFitsNow(a: Account, code: PlanCode, at: int, now: int)
    requires at <= now
    ensures PlanFits(a, code, at).None? ==> SeatsFit(a, code, now) && FilesFit(code, a.files)
  {
    PendingShrinks(a.invitations, at, now);
  }

  /** Fits depends on the workspace and on which plans are current and queued. */
  lemma SameWorkspaceFits(a: Account, b: Account, now: int)
    requires a.members == b.members && a.invitations == b.invitations && a.files == b.files
    requires SeatsFit(a, b.plan, now) && FilesFit(b.plan, a.files)
    requires b.pendingPlan.Some? ==> SeatsFit(a, b.pendingPlan.value, now) && FilesFit(b.pendingPlan.value, a.files)
    ensures Fits(b, now)
  {
  }

  lemma ChangePlanFits(a: Account, code: PlanCode, at: int, now: int)
    requires Fits(a, now) && at <= now
    ensures Fits(OrElse(ChangePlan(a, code, at), a), now)
  {
    PlanFitsNow(a, code, at, now);
    hide PlanFits, SeatsFit, FilesFit;
    SameWorkspaceFits(a, OrElse(ChangePlan(a, code, at), a), now);
  }

  lemma RequestPlanFits(a: Account, code: PlanCode, at: int, now: int)
    requires Fits(a, now) && at <= now
    ensures Fits(OrElse(RequestPlan(a, code, at), a), now)
  {
    PlanFitsNow(a, code, at, now);
    hide PlanFits, SeatsFit, FilesFit;
    SameWorkspaceFits(a, OrElse(RequestPlan(a, code, at), a), now);
  }

  /** Whatever the provider reports, the plan becomes one that fits or stays as it is. */
  lemma CanonicalFits(a: Account, remote: Remote, at: int, now: int)
    requires Fits(a, now) && at <= now
    ensures Fits(ApplyCanonical(a, remote, at), now)
  {
    PlanFitsNow(a, Free, at, now);
    PlanFitsNow(a, remote.plan, at, now);
    hide PlanFits, SeatsFit, FilesFit;
    SameWorkspaceFits(a, ApplyCanonical(a, remote, at), now);
  }

  /** A step from a workspace that fits leads to one that does not exactly when it is an overbooking resend. */
  lemma StepFits(a: Account, action: Action, now: int)
    requires Fits(a, now) && NotFromTheFuture(action, now)
    ensures Fits(Step(a, action, now), now) <==> !Overbooks(a, action, now)
  {
    hide Fits, Upload, Invite, Accept, ApplyCanonical, RequestPlan, ChangePlan, Overbooks, Resend;
    match action
    case DoInvite(id, email, at, open) =>
      if Invite(a, id, email, at, open).Ok? { InviteFits(a, id, email, at, open, now); }
      NoOverbooking(a, action, now);
    case DoResend(id, at) => ResendFits(a, id, at, now);
    case DoRevoke(id) =>
      FewerSeatsFit(a, Step(a, action, now), now);
      NoOverbooking(a, action, now);
    case DoAccept(id, at, open) =>
      if Accept(a, id, at, open).Ok? { AcceptFits(a, id, at, open, now); }
      NoOverbooking(a, action, now);
    case DoUpload(quantity, at) =>
      if quantity >= 1 { UploadFits(a, quantity, at, now); }
      NoOverbooking(a, action, now);
    case DoChangePlan(code, at) =>
      ChangePlanFits(a, code, at, now);
      NoOverbooking(a, action, now);
    case DoRequestPlan(code, at) =>
      RequestPlanFits(a, code, at, now);
      NoOverbooking(a, action, now);
    case DoCanonical(remote, at) =>
      if a.link.hasSubscription { CanonicalFits(a, remote, at, now); }
      NoOverbooking(a, action, now);
    case _ =>
      FewerSeatsFit(a, Step(a, action, now), now);
      NoOverbooking(a, action, now);
  }

  lemma NoOverbooking(a: Account, action: Action, now: int)
    requires !action.DoResend?
    ensures !Overbooks(a, action, now)
  {
  }

  // ----- All runs -----

  predicate NeverOverbooks(a: Account, trace: seq<Timed>) {
    forall i :: 0 <= i < |trace| ==> !Overbooks(Run(a, trace[..i]), trace[i].action, trace[i].now)
  }

  /** The workspace fits after every step of the run, at the time of that step. */
  predicate AlwaysFits(a: Account, trace: seq<Timed>) {
    forall i :: 0 <= i < |trace| ==> Fits(Run(a, trace[..i + 1]), trace[i].now)
  }

  /** A run that starts from a workspace that fits keeps fitting exactly when none of its steps overbooks. */
  lemma {:induction false} RunFitsExactly(a: Account, trace: seq<Timed>, from: int)
    requires Fits(a, from) && Clocked(trace, from)
    ensures AlwaysFits(a, trace) <==> NeverOverbooks(a, trace)
    decreases |trace|
  {
    hide Fits, Overbooks, Step;
    if trace != [] {
      var init, last := trace[..|trace| - 1], trace[|trace| - 1];
      RunFitsExactly(a, init, from);
      Prefixes(a, trace);
      if AlwaysFits(a, init) {
        if init == [] {
          FitsLater(a, from, last.now);
        } else {
          assert init[..|init| - 1 + 1] == init;
          FitsLater(Run(a, init), init[|init| - 1].now, last.now);
        }
        StepFits(Run(a, init), last.action, last.now);
      }
    }
  }

  lemma Prefixes(a: Account, trace: seq<Timed>)
    requires trace != []
    ensures var init, last := trace[..|trace| - 1], trace[|trace| - 1];
            (AlwaysFits(a, trace) <==> AlwaysFits(a, init) && Fits(Run(a, trace), last.now)) &&
            (NeverOverbooks(a, trace) <==> NeverOverbooks(a, init) && !Overbooks(Run(a, init), last.action, last.now))
  {
    hide Fits, Overbooks, Step, Run;
    var n := |trace| - 1;
    var init := trace[..n];
    assert forall i :: 0 <= i <= n ==> trace[..i] == init[..i];
    assert forall i :: 0 <= i < n ==> trace[..i + 1] == init[..i + 1] && trace[i] == init[i];
    assert trace[..n + 1] == trace;
  }

  lemma InitialFits(activatedAt: Instant, enabled: bool, t: int)
    ensures Fits(Initial(activatedAt, enabled), t)
  {
    assert PendingAt(map[], t) == {};
  }

  /** When resends act at the very moment their clock was read, a new company never outgrows its plans. */
  lemma PromptResendsFit(activatedAt: Instant, enabled: bool, trace: seq<Timed>, from: int)
    requires Clocked(trace, from)
    requires forall i :: 0 <= i < |trace| && trace[i].action.DoResend? ==> trace[i].action.at == trace[i].now
    ensures AlwaysFits(Initial(activatedAt, enabled), trace)
  {
    InitialFits(activatedAt, enabled, from);
    RunFitsExactly(Initial(activatedAt, enabled), trace, from);
  }

  // ----- A run that overbooks -----

  /** The first invitation goes out at time 0, the next nine at time 5. */
  function SentAt(i: nat): int { if i == 0 then 0 else 5 }

  function Fill(n: nat): seq<Timed> {
    if n == 0 then [Timed(DoChangePlan(Basic, 0), 0)]
    else Fill(n - 1) + [Timed(DoInvite(n - 1, n - 1, SentAt(n - 1), true), SentAt(n - 1))]
  }

  function Sent(n: nat): map<nat, Invitation> {
    map i: nat | i < n :: Invitation(i, Pending, SentAt(i) + INVITATION_TTL_MS, SentAt(i))
  }

  function Filled(n: nat): Account {
    Initial(0, false).(plan := Basic, invitations := Sent(n))
  }

  lemma InviteOneMore(n: nat, t: int)
    requires 0 <= t <= 5 || (n == 10 && t == INVITATION_TTL_MS + 1)
    requires |PendingAt(Sent(n), t)| < 10
    ensures Step(Filled(n), DoInvite(n, n, t, true), t)
            == Filled(n).(invitations := Sent(n)[n := Invitation(n, Pending, t + INVITATION_TTL_MS, t)])
  {
    assert ExpireStale(Sent(n), n, t) == Sent(n);
  }

  lemma ChooseBasic()
    ensures Step(Initial(0, false), DoChangePlan(Basic, 0), 0) == Filled(0)
  {
    assert PendingAt(map[], 0) == {};
    assert Sent(0) == map[];
  }

  lemma SentGrows(n: nat)
    ensures Sent(n)[n := Invitation(n, Pending, SentAt(n) + INVITATION_TTL_MS, SentAt(n))] == Sent(n + 1)
  {
  }

  lemma FillNext(n: nat)
    requires n < 10 && Run(Initial(0, false), Fill(n)) == Filled(n)
    ensures Run(Initial(0, false), Fill(n + 1)) == Filled(n + 1)
  {
    var t := SentAt(n);
    RunOneMore(Initial(0, false), Fill(n), Timed(DoInvite(n, n, t, true), t));
    hide Step, Run, Sent, Seats;
    PendingSent(n, t);
    InviteOneMore(n, t);
    SentGrows(n);
  }

  lemma {:induction false} FillSends(n: nat)
    requires n <= 10
    ensures Run(Initial(0, false), Fill(n)) == Filled(n)
  {
    if n == 0 {
      ChooseBasic();
      RunOneMore(Initial(0, false), [], Timed(DoChangePlan(Basic, 0), 0));
      assert Fill(0) == [] + [Timed(DoChangePlan(Basic, 0), 0)];
    } else {
      FillSends(n - 1);
      hide Fill, Step, Run, Filled;
      FillNext(n - 1);
    }
  }

  lemma RunOneMore(a: Account, trace: seq<Timed>, last: Timed)
    ensures Run(a, trace + [last]) == Step(Run(a, trace), last.action, last.now)
  {
    assert (trace + [last])[..|trace|] == trace;
  }

  lemma {:induction false} SentSize(n: nat)
    ensures |Sent(n).Keys| == n
  {
    if n == 0 {
      assert Sent(0).Keys == {};
    } else {
      SentSize(n - 1);
      assert Sent(n).Keys == Sent(n - 1).Keys + {n - 1};
    }
  }

  lemma PendingSent(n: nat, t: int)
    requires t <= 5
    ensures |PendingAt(Sent(n), t)| == n
  {
    assert PendingAt(Sent(n), t) == Sent(n).Keys;
    SentSize(n);
  }

  lemma {:induction false} FillClocked(n: nat)
    ensures Clocked(Fill(n), 0) && Fill(n) != [] && Fill(n)[|Fill(n)| - 1].now == if n <= 1 then 0 else 5
  {
    if n > 0 {
      FillClocked(n - 1);
      hide Clocked;
      ClockedThen(Fill(n - 1), Timed(DoInvite(n - 1, n - 1, SentAt(n - 1), true), SentAt(n - 1)), 0);
    }
  }

  /** A run goes on with a step that is no earlier than its last and reads no later clock. */
  lemma ClockedThen(trace: seq<Timed>, next: Timed, from: int)
    requires Clocked(trace, from) && from <= next.now && NotFromTheFuture(next.action, next.now)
    requires trace != [] ==> trace[|trace| - 1].now <= next.now
    ensures Clocked(trace + [next], from)
  {
    hide NotFromTheFuture;
  }

  /**
    Basic allows ten seats. Ten invitations are out; the first expires, an eleventh takes its seat,
    and a resend of the first, whose clock was read a millisecond before the expiry, is committed: eleven seats.
  */
  lemma StaleResendOverbooks()
    ensures var expiry := INVITATION_TTL_MS;
            var trace := Fill(10) + [Timed(DoInvite(10, 10, expiry + 1, true), expiry + 1),
                                     Timed(DoResend(0, expiry - 1), expiry + 1)];
            var end := Run(Initial(0, false), trace);
            Clocked(trace, 0) && Seats(end, expiry + 1) == 11 && !Fits(end, expiry + 1)
  {
    hide Step, Clocked;
    var t := INVITATION_TTL_MS + 1;
    var a0 := Initial(0, false);
    var invite := Timed(DoInvite(10, 10, t, true), t);
    var resend := Timed(DoResend(0, t - 2), t);
    FillClocked(10);
    ClockedThen(Fill(10), invite, 0);
    ClockedThen(Fill(10) + [invite], resend, 0);
    FillSends(10);
    RunOneMore(a0, Fill(10), invite);
    RunOneMore(a0, Fill(10) + [invite], resend);
    assert Fill(10) + [invite, resend] == Fill(10) + [invite] + [resend];
    EleventhSeat(t);
  }

  lemma EleventhSeat(t: int)
    requires t == INVITATION_TTL_MS + 1
    ensures var b := Step(Filled(10), DoInvite(10, 10, t, true), t);
            var c := Step(b, DoResend(0, t - 2), t);
            Seats(c, t) == 11 && !Fits(c, t)
  {
    PendingSent(10, 5);
    assert PendingAt(Sent(10), t) == PendingAt(Sent(10), 5) - {0};
    InviteOneMore(10, t);
    var invitations := Sent(10)[10 := Invitation(10, Pending, t + INVITATION_TTL_MS, t)];
    var b := Filled(10).(invitations := invitations);
    assert PendingAt(invitations, t) == PendingAt(Sent(10), t) + {10};
    var c := Resend(b, 0, t - 2);
    assert PendingAt(c.invitations, t) == PendingAt(invitations, t) + {0};
  }
}
