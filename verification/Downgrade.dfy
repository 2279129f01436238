/**
  Cleanup before a downgrade. Files are listed newest first, employees and invitations oldest
  first; cleanup keeps the head of each list. File objects and rows live in two stores and are
  deleted one by one, so the loop can stop anywhere.
*/
module Downgrade {
  import opened Wrappers
  import opened Plans
  import opened Account

  datatype Space = Space(files: seq<nat>, objects: set<nat>, employees: seq<nat>, invitations: seq<nat>)

  function Rank(code: PlanCode): nat {
    match code case Free => 0 case Basic => 1 case Premium => 2
  }

  function Min(a: nat, b: nat): nat {
    if a <= b then a else b
  }

  // ----- snapshot -----

  function KeepFiles(s: Space, code: PlanCode): (n: nat)
    ensures n <= |s.files|
  {
    Min(Find(code).includedFiles, |s.files|)
  }

  function KeepEmployees(s: Space, code: PlanCode): (n: nat)
    ensures n <= |s.employees|
  {
    match Find(code).maxEmployees
    case None => |s.employees|
    case Some(max) => Min(max, |s.employees|)
  }

  function KeepInvitations(s: Space, code: PlanCode): (n: nat)
    ensures n <= |s.invitations|
  {
    match Find(code).maxEmployees
    case None => |s.invitations|
    case Some(max) => Min(max - KeepEmployees(s, code), |s.invitations|)
  }

  /** What the preview token hashes. */
  datatype Preview = Preview(code: PlanCode, current: PlanCode, files: seq<nat>, employees: seq<nat>, invitations: seq<nat>)

  function PreviewOf(s: Space, code: PlanCode, current: PlanCode): Preview {
    Preview(code, current, s.files, s.employees, s.invitations)
  }

  /** The token confirms the plan, the current plan and every file, member and invitation in order. */
  lemma PreviewShowsEverything(s: Space, t: Space, code: PlanCode, other: PlanCode, current: PlanCode, now: PlanCode)
    ensures PreviewOf(s, code, current) == PreviewOf(t, other, now) <==>
            code == other && current == now && s.files == t.files && s.employees == t.employees && s.invitations == t.invitations
  {
  }

  function Elements(s: seq<nat>): set<nat> {
    set x | x in s
  }

  /** The end of a cleanup that is not interrupted. */
  function Cleaned(s: Space, code: PlanCode): Space {
    Space(s.files[..KeepFiles(s, code)], s.objects - Elements(s.files[KeepFiles(s, code)..]),
          s.employees[..KeepEmployees(s, code)], s.invitations[..KeepInvitations(s, code)])
  }

  predicate SpaceOk(s: Space) {
    && (forall i, j :: 0 <= i < j < |s.files| ==> s.files[i] != s.files[j])
    && (forall id :: id in s.files ==> id in s.objects)
  }

  // ----- What cleanup achieves -----

  /** The plans below another: those without an overage price. */
  predicate Lower(code: PlanCode, current: PlanCode) {
    Rank(code) < Rank(current)
  }

  /** The account's members, pending invitations and files are the workspace's. */
  predicate Describes(s: Space, a: Account, at: int) {
    |a.members| == |s.employees| && |PendingAt(a.invitations, at)| == |s.invitations| && a.files == |s.files|
  }

  /** The subscription's part of the account. */
  datatype Subscription = Subscription(plan: PlanCode, pendingPlan: Option<PlanCode>, link: Link)

  function SubscriptionOf(a: Account): Subscription {
    Subscription(a.plan, a.pendingPlan, a.link)
  }

  /** Why snapshot refuses, if it does. */
  function Refusal(sub: Subscription, code: PlanCode): Option<Outcome> {
    if sub.link.managed && !sub.link.enabled then Some(Forbidden)
    else if !Lower(code, sub.plan) then Some(NotLower)
    else None
  }

  /** Who and what cleanup would remove. */
  function SurplusFiles(s: Space, code: PlanCode): seq<nat> {
    s.files[KeepFiles(s, code)..]
  }

  function SurplusEmployees(s: Space, code: PlanCode): seq<nat> {
    s.employees[KeepEmployees(s, code)..]
  }

  function SurplusInvitations(s: Space, code: PlanCode): seq<nat> {
    s.invitations[KeepInvitations(s, code)..]
  }

  /** Why the workspace does not fit the plan, if it does not. */
  function SpaceFits(s: Space, code: PlanCode): Option<Denial> {
    var plan := Find(code);
    if plan.maxEmployees.Some? && |s.employees| + |s.invitations| > plan.maxEmployees.value then Some(PlanEmployeeLimit)
    else if plan.extraFilePriceCents.None? && |s.files| > plan.includedFiles then Some(PlanFileLimit)
    else None
  }

  /** What a plan change does to a subscription; `misfit` is why the workspace does not fit the plan. */
  function Changed(sub: Subscription, code: PlanCode, misfit: Option<Denial>): Result<Subscription, Denial> {
    if !sub.link.enabled && sub.link.managed then Err(PaymentIntegrationRequired)
    else if sub.link.enabled && !sub.link.hasSubscription && code != Free then Err(CheckoutRequired)
    else if misfit.Some? then Err(misfit.value)
    else if !sub.link.enabled then Ok(sub.(plan := code))
    else if !sub.link.hasSubscription then Ok(sub.(plan := code, link := sub.link.(access := Unmanaged)))
    else if sub.pendingPlan.Some? && sub.pendingPlan.value != code && code != sub.plan && code != Free then Err(QueuedChange)
    else if sub.pendingPlan != Some(code) || (code == Free && sub.link.confirmed) then
      Ok(sub.(pendingPlan := Some(code), link := sub.link.(confirmed := false)))
    else Ok(sub)
  }

  /**
    The plan change that closes a cleanup, once the members to remove are gone. It takes or queues
    the lower plan, or is refused for a missing checkout, another queued plan or too many files.
  */
  lemma ClosingChange(s: Space, a: Account, code: PlanCode, at: int)
    requires Describes(s, a, at) && Refusal(SubscriptionOf(a), code).None?
    requires SurplusEmployees(s, code) == [] && SurplusInvitations(s, code) == []
    ensures var sub := Changed(SubscriptionOf(a), code, SpaceFits(s, code));
            && ChangePlan(a, code, at) ==
               (match sub case Ok(t) => Ok(a.(plan := t.plan, pendingPlan := t.pendingPlan, link := t.link)) case Err(e) => Err(e))
            && (sub.Ok? ==> sub.value.plan == code || sub.value.pendingPlan == Some(code))
            && (sub == Err(PlanFileLimit) ==> |s.files| > Find(code).includedFiles)
            && (sub.Err? && sub.error != PlanFileLimit ==>
                  a.link.enabled && code != Free && sub.error in {CheckoutRequired, QueuedChange})
  {
    hide PlanFits, SpaceFits, Describes, SurplusEmployees, SurplusInvitations;
    SameFits(s, a, code, at);
    OnlyFilesMisfit(s, code, a.plan);
  }

  /** The workspace's own counts decide as the account's do. */
  lemma SameFits(s: Space, a: Account, code: PlanCode, at: int)
    requires Describes(s, a, at)
    ensures PlanFits(a, code, at) == SpaceFits(s, code)
  {
    hide PendingAt;
  }

  /** With the members to remove gone, only files can be too many. */
  lemma OnlyFilesMisfit(s: Space, code: PlanCode, current: PlanCode)
    requires SurplusEmployees(s, code) == [] && SurplusInvitations(s, code) == [] && Lower(code, current)
    ensures SpaceFits(s, code) == if |s.files| > Find(code).includedFiles then Some(PlanFileLimit) else None
  {
  }

  /** The `i`th invitation is accepted. */
  function Accepted(s: Space, i: nat, member: nat): Space
    requires i < |s.invitations|
  {
    s.(employees := s.employees + [member], invitations := s.invitations[..i] + s.invitations[i + 1..])
  }

  /** The transaction notices an acceptance exactly when the invitation was to be revoked. */
  lemma AcceptanceIsNoticed(s: Space, code: PlanCode, current: PlanCode, i: nat, member: nat)
    requires Lower(code, current) && i < |s.invitations|
    requires forall j, k :: 0 <= j < k < |s.invitations| ==> s.invitations[j] != s.invitations[k]
    ensures var t := Accepted(s, i, member);
            (SurplusEmployees(t, code) == SurplusEmployees(s, code) && SurplusInvitations(t, code) == SurplusInvitations(s, code))
            <==> i < KeepInvitations(s, code)
  {
    var t, keep := Accepted(s, i, member), KeepInvitations(s, code);
    if i < keep {
      assert t.invitations[keep - 1..] == s.invitations[keep..];
      assert t.employees[|t.employees|..] == s.employees[|s.employees|..];
    } else if |s.employees| >= Find(code).maxEmployees.value {
      assert |SurplusEmployees(t, code)| == |SurplusEmployees(s, code)| + 1;
    } else {
      assert KeepInvitations(t, code) == keep - 1 < |t.invitations|;
      assert t.invitations[keep - 1] == s.invitations[keep - 1];
      FirstOfTail(t.invitations, keep - 1);
      FirstOfTail(s.invitations, keep);
    }
  }

  lemma FirstOfTail(a: seq<nat>, n: nat)
    requires n < |a|
    ensures |a[n..]| > 0 && a[n..][0] == a[n]
  {
  }

  /** The checks of the plan change that follows cleanup pass. */
  lemma CleanedFits(s: Space, a: Account, code: PlanCode, at: int)
    requires Describes(Cleaned(s, code), a, at)
    ensures PlanFits(a, code, at).None?
  {
    hide PendingAt;
  }

  /** Any selection that fits keeps no more files, no more employees and no more seats. */
  lemma CleanedKeepsMost(s: Space, code: PlanCode, current: PlanCode, files: nat, employees: nat, invitations: nat)
    requires Lower(code, current) && files <= |s.files| && employees <= |s.employees| && invitations <= |s.invitations|
    requires FilesFit(code, files)
    requires Find(code).maxEmployees.Some? ==> employees + invitations <= Find(code).maxEmployees.value
    ensures files <= KeepFiles(s, code) && employees <= KeepEmployees(s, code)
    ensures employees + invitations <= KeepEmployees(s, code) + KeepInvitations(s, code)
  {
  }

  /** A workspace that already fits is left as it is. */
  lemma CleanedIsStable(s: Space, code: PlanCode)
    ensures Cleaned(Cleaned(s, code), code) == Cleaned(s, code)
  {
    var t := Cleaned(s, code);
    assert t.files[..|t.files|] == t.files && Elements(t.files[|t.files|..]) == {};
  }

  // ----- Stopping and running again -----

  /** Stopped with `n` files left, after the object of the next one may have gone too. */
  predicate StoppedAt(s: Space, t: Space, code: PlanCode, n: nat) {
    && KeepFiles(s, code) <= n <= |s.files|
    && t.files == s.files[..n] && t.employees == s.employees && t.invitations == s.invitations
    && (t.objects == s.objects - Elements(s.files[n..]) ||
        (n > KeepFiles(s, code) && t.objects == s.objects - Elements(s.files[n - 1..])))
  }

  /** Whenever the loop stops, the newest files are all there, and so are the objects of all that are to be kept. */
  lemma StoppedKeepsNewest(s: Space, t: Space, code: PlanCode, n: nat)
    requires SpaceOk(s) && StoppedAt(s, t, code, n)
    ensures t.files <= s.files && Cleaned(s, code).files <= t.files
    ensures forall i :: 0 <= i < |t.files| && (i < KeepFiles(s, code) || i < |t.files| - 1) ==> t.files[i] in t.objects
  {
    assert Cleaned(s, code).files == t.files[..KeepFiles(s, code)];
    forall i | 0 <= i < |t.files| && (i < KeepFiles(s, code) || i < |t.files| - 1) ensures t.files[i] in t.objects {
      assert s.files[i] in s.objects;
      assert s.files[i] !in s.files[n..];
      if n > KeepFiles(s, code) { assert s.files[i] !in s.files[n - 1..]; }
    }
  }

  /** A second cleanup ends where an undisturbed one would have. */
  lemma RerunEndsTheSame(s: Space, t: Space, code: PlanCode, n: nat)
    requires StoppedAt(s, t, code, n)
    ensures Cleaned(t, code) == Cleaned(s, code)
  {
    hide Elements;
    var keep := KeepFiles(s, code);
    var middle, last := s.files[keep..n], s.files[n..];
    Parts(s.files, keep, n);
    ElementsJoin(middle, last);
    if n > keep {
      ElementsJoin(s.files[keep..n - 1], [s.files[n - 1]]);
      ElementsJoin([s.files[n - 1]], last);
    }
    SameRest(s.objects, t.objects, Elements(middle), Elements(last));
  }

  lemma Parts(files: seq<nat>, keep: nat, n: nat)
    requires keep <= n <= |files|
    ensures files[..n][..keep] == files[..keep] && files[..n][keep..] == files[keep..n]
    ensures files[keep..] == files[keep..n] + files[n..]
    ensures n > keep ==> files[keep..n] == files[keep..n - 1] + [files[n - 1]] && files[n - 1..] == [files[n - 1]] + files[n..]
  {
  }

  lemma ElementsJoin(a: seq<nat>, b: seq<nat>)
    ensures Elements(a + b) == Elements(a) + Elements(b)
  {
  }

  lemma SameRest(all: set<nat>, rest: set<nat>, middle: set<nat>, last: set<nat>)
    requires all - middle - last <= rest <= all - last
    ensures rest - middle == all - (middle + last)
  {
  }

  // ----- The loop -----

  function Without(files: seq<nat>, id: nat): seq<nat> {
    if files == [] then [] else (if files[0] == id then [] else [files[0]]) + Without(files[1..], id)
  }

  lemma {:induction false} WithoutAbsent(files: seq<nat>, id: nat)
    requires id !in files
    ensures Without(files, id) == files
  {
    if files != [] {
      WithoutAbsent(files[1..], id);
    }
  }

  lemma {:induction false} WithoutLast(files: seq<nat>)
    requires |files| > 0 && forall i, j :: 0 <= i < j < |files| ==> files[i] != files[j]
    ensures Without(files, files[|files| - 1]) == files[..|files| - 1]
  {
    var id := files[|files| - 1];
    if |files| == 1 {
      assert files == [id];
    } else {
      WithoutLast(files[1..]);
      assert files[1..][..|files| - 2] == files[1..|files| - 1];
      assert files[..|files| - 1] == [files[0]] + files[1..|files| - 1];
    }
  }

  /** The rows that are left when those of `ids` are deleted, the last one first. */
  function Removed(files: seq<nat>, ids: seq<nat>): seq<nat> {
    if ids == [] then files else Without(Removed(files, ids[1..]), ids[0])
  }

  lemma {:induction false} WithoutElements(files: seq<nat>, id: nat)
    ensures Elements(Without(files, id)) == Elements(files) - {id}
  {
    if files != [] {
      WithoutElements(files[1..], id);
      assert files == [files[0]] + files[1..];
      ElementsJoin([files[0]], files[1..]);
      ElementsJoin(if files[0] == id then [] else [files[0]], Without(files[1..], id));
    }
  }

  lemma {:induction false} RemovedElements(files: seq<nat>, ids: seq<nat>)
    ensures Elements(Removed(files, ids)) == Elements(files) - Elements(ids)
  {
    if ids != [] {
      RemovedElements(files, ids[1..]);
      WithoutElements(Removed(files, ids[1..]), ids[0]);
      assert ids == [ids[0]] + ids[1..];
      ElementsJoin([ids[0]], ids[1..]);
    }
  }

  /** Without others, the newest files are left. */
  lemma {:induction false} RemovedTail(files: seq<nat>, m: nat)
    requires m <= |files| && forall i, j :: 0 <= i < j < |files| ==> files[i] != files[j]
    ensures Removed(files, files[m..]) == files[..m]
    decreases |files| - m
  {
    if m < |files| {
      RemovedTail(files, m + 1);
      WithoutLast(files[..m + 1]);
      assert files[m..][1..] == files[m + 1..];
      assert files[..m + 1][..m] == files[..m];
    } else {
      assert files[..m] == files;
    }
  }

  /** The objects deleted with the rows of `ids`: those of rows that are there. */
  function Gone(files: seq<nat>, ids: seq<nat>): set<nat> {
    Elements(files) * Elements(ids)
  }

  /** Cleanup has deleted the files of `ids` from the `n`th on, and perhaps the object of the one before. */
  predicate DeletedFrom(l: Space, t: Space, ids: seq<nat>, n: nat) {
    && n <= |ids| && t.files == Removed(l.files, ids[n..]) && t.employees == l.employees && t.invitations == l.invitations
    && (t.objects == l.objects - Gone(l.files, ids[n..]) ||
        (n > 0 && t.objects == l.objects - Gone(l.files, ids[n - 1..])))
  }

  /** Without others, the loop stops as StoppedAt says. */
  lemma UndisturbedStops(s: Space, t: Space, code: PlanCode, n: nat)
    requires SpaceOk(s) && DeletedFrom(s, t, SurplusFiles(s, code), n)
    ensures StoppedAt(s, t, code, KeepFiles(s, code) + n)
    ensures n == 0 ==> t == s.(files := Cleaned(s, code).files, objects := Cleaned(s, code).objects)
  {
    hide Elements;
    var keep := KeepFiles(s, code);
    assert SurplusFiles(s, code)[n..] == s.files[keep + n..];
    RemovedTail(s.files, keep + n);
    TailIsGone(s.files, keep + n);
    if n > 0 {
      assert SurplusFiles(s, code)[n - 1..] == s.files[keep + n - 1..];
      TailIsGone(s.files, keep + n - 1);
    }
  }

  lemma TailIsGone(files: seq<nat>, m: nat)
    requires m <= |files|
    ensures Gone(files, files[m..]) == Elements(files[m..])
  {
    assert files == files[..m] + files[m..];
    ElementsJoin(files[..m], files[m..]);
  }

  /** Whatever others do meanwhile, at most the files to keep and the files uploaded meanwhile are left. */
  lemma FilesLeft(s: Space, l: Space, code: PlanCode)
    ensures Elements(Removed(l.files, SurplusFiles(s, code))) <=
            Elements(Cleaned(s, code).files) + (Elements(l.files) - Elements(s.files))
  {
    hide Elements;
    var keep := KeepFiles(s, code);
    RemovedElements(l.files, SurplusFiles(s, code));
    assert s.files == s.files[..keep] + SurplusFiles(s, code);
    ElementsJoin(s.files[..keep], SurplusFiles(s, code));
  }

  /** Deleting the `i`th of the files, if its row is there. */
  lemma OneMoreGone(files: seq<nat>, ids: seq<nat>, i: nat, objects: set<nat>)
    requires i < |ids|
    ensures Removed(files, ids[i..]) == Without(Removed(files, ids[i + 1..]), ids[i])
    ensures var id, later := ids[i], ids[i + 1..];
            if id in Removed(files, later) then objects - Gone(files, ids[i..]) == objects - Gone(files, later) - {id}
            else Gone(files, ids[i..]) == Gone(files, later) && Removed(files, ids[i..]) == Removed(files, later)
  {
    var id, later := ids[i], ids[i + 1..];
    assert ids[i..] == [id] + later;
    RemovedElements(files, later);
    ElementsJoin([id], later);
    assert id in Removed(files, later) <==> id in Elements(Removed(files, later));
    assert id in files <==> id in Elements(files);
    if id !in Removed(files, later) {
      WithoutAbsent(Removed(files, later), id);
    }
  }

  /** `Incomplete` stands for every failure that is not a conflict. */
  datatype Outcome =
    | Forbidden
    | NotLower
    | PreviewChanged
    | PaymentSetup
    | Incomplete
    | MembershipChanged
    | Refused(denial: Denial)
    | Done

  /** The subscription and the workspace as other requests leave them while the files are deleted. */
  datatype Meanwhile = Meanwhile(sub: Subscription, space: Space)

  /** The files to remove are gone, and nothing else. */
  function FilesCleaned(l: Space, ids: seq<nat>): Space {
    l.(files := Removed(l.files, ids), objects := l.objects - Gone(l.files, ids))
  }

  predicate NeedsCheckout(sub: Subscription, code: PlanCode) {
    sub.link.enabled && code != Free && (!sub.link.hasSubscription || sub.link.terminal)
  }

  class Workspace {
    var sub: Subscription
    var files: seq<nat>
    var objects: set<nat>
    var employees: seq<nat>
    var invitations: seq<nat>

    constructor (sub: Subscription)
      ensures this.sub == sub && View() == Space([], {}, [], [])
    {
      this.sub, files, objects, employees, invitations := sub, [], {}, [], [];
    }

    function View(): Space
      reads this
    {
      Space(files, objects, employees, invitations)
    }

    /**
      The reverse loop over the files to remove; `budget` store operations happen before it is cut
      off. Each file that is still there loses its object first and then its row.
    */
    method DeleteFiles(fileIds: seq<nat>, budget: nat) returns (finished: bool)
      modifies this`files, this`objects
      ensures exists n :: DeletedFrom(old(View()), View(), fileIds, n) && (finished ==> n == 0)
      ensures finished ==> View() == FilesCleaned(old(View()), fileIds)
      ensures budget >= 2 * |fileIds| ==> finished
    {
      hide Elements, Gone;
      ghost var l := View();
      var left, i := budget, |fileIds|;
      NothingGone(l, fileIds);
      while i > 0
        invariant 0 <= i <= |fileIds|
        invariant files == Removed(l.files, fileIds[i..]) && objects == l.objects - Gone(l.files, fileIds[i..])
        invariant left >= budget - 2 * (|fileIds| - i) && employees == l.employees && invitations == l.invitations
      {
        var id := fileIds[i - 1];
        OneMoreGone(l.files, fileIds, i - 1, l.objects);
        assert DeletedFrom(l, View(), fileIds, i);
        if id in files {
          if left == 0 { return false; }
          objects := objects - {id};
          left := left - 1;
          assert DeletedFrom(l, View(), fileIds, i);
          if left == 0 { return false; }
          files := Without(files, id);
          left := left - 1;
        }
        i := i - 1;
      }
      assert fileIds[0..] == fileIds;
      assert DeletedFrom(l, View(), fileIds, 0);
      return true;
    }

    /** SubscriptionsService.changePlan and the local transaction of PaymentsService.changePlan. */
    method ChangePlan(code: PlanCode) returns (r: Result<(), Denial>)
      modifies this`sub
      ensures var next := Changed(old(sub), code, SpaceFits(View(), code));
              && r == (match next case Ok(_) => Ok(()) case Err(e) => Err(e))
              && sub == (match next case Ok(t) => t case Err(_) => old(sub))
    {
      var target, link := Find(code), sub.link;
      if !link.enabled && link.managed { return Err(PaymentIntegrationRequired); }
      if link.enabled && !link.hasSubscription && code != Free { return Err(CheckoutRequired); }
      if target.maxEmployees.Some? && |employees| + |invitations| > target.maxEmployees.value { return Err(PlanEmployeeLimit); }
      if target.extraFilePriceCents.None? && |files| > target.includedFiles { return Err(PlanFileLimit); }
      if !link.enabled {
        sub := sub.(plan := code);
      } else if !link.hasSubscription {
        sub := sub.(plan := code, link := link.(access := Unmanaged));
      } else {
        if sub.pendingPlan.Some? && sub.pendingPlan.value != code && code != sub.plan && code != Free { return Err(QueuedChange); }
        if sub.pendingPlan != Some(code) || (code == Free && link.confirmed) {
          sub := sub.(pendingPlan := Some(code), link := link.(confirmed := false));
        }
      }
      return Ok(());
    }

    /** The membership transaction, against the lists that were confirmed. */
    method RemoveMembers(code: PlanCode, employeeIds: seq<nat>, invitationIds: seq<nat>) returns (failure: Option<Outcome>)
      modifies this`employees, this`invitations
      ensures Refusal(sub, code).Some? ==> failure == Some(if Refusal(sub, code) == Some(NotLower) then NotLower else Incomplete)
      ensures Refusal(sub, code).None? ==>
                failure == if SurplusEmployees(old(View()), code) == employeeIds &&
                              SurplusInvitations(old(View()), code) == invitationIds
                           then None else Some(MembershipChanged)
      ensures failure.Some? ==> View() == old(View())
      ensures failure.None? ==>
                && employees == old(View()).employees[..KeepEmployees(old(View()), code)]
                && invitations == old(View()).invitations[..KeepInvitations(old(View()), code)]
    {
      var current := View();
      var refusal := Refusal(sub, code);
      if refusal.Some? { return Some(if refusal.value == NotLower then NotLower else Incomplete); }
      if SurplusEmployees(current, code) != employeeIds || SurplusInvitations(current, code) != invitationIds {
        return Some(MembershipChanged);
      }
      employees := employees[..KeepEmployees(current, code)];
      invitations := invitations[..KeepInvitations(current, code)];
      return None;
    }

    /**
      Removes exactly what the preview showed or stops with a reason. What other requests change
      while the files are deleted is arbitrary.
    */
    method Cleanup(code: PlanCode, token: Preview, budget: nat, meanwhile: Meanwhile) returns (r: Outcome)
      modifies this
      ensures var first := FirstRefusal(old(View()), old(sub), code, token);
              && (first.Some? ==> r == first.value && View() == old(View()) && sub == old(sub))
              && (first.None? ==> EndsAs(old(View()), meanwhile, code, budget, View(), sub, r))
    {
      hide DeletedFrom, FilesCleaned, Changed, EndsAs, SpaceFits;
      var before := View();
      var refusal := Refusal(sub, code);
      if refusal.Some? { return refusal.value; }
      var fileIds := SurplusFiles(before, code);
      var employeeIds, invitationIds := SurplusEmployees(before, code), SurplusInvitations(before, code);
      if PreviewOf(before, code, sub.plan) != token { return PreviewChanged; }
      if NeedsCheckout(sub, code) { return PaymentSetup; }
      sub, files, objects := meanwhile.sub, meanwhile.space.files, meanwhile.space.objects;
      employees, invitations := meanwhile.space.employees, meanwhile.space.invitations;
      var finished := DeleteFiles(fileIds, budget);
      if !finished {
        EndedIncomplete(before, meanwhile, code, budget, View());
        return Incomplete;
      }
      MembersLeft(meanwhile.space, fileIds, code);
      var failure := RemoveMembers(code, employeeIds, invitationIds);
      if failure.Some? {
        EndedEarly(before, meanwhile, code, budget, failure.value);
        return failure.value;
      }
      var changed := ChangePlan(code);
      r := if changed.Ok? then Done else Refused(changed.error);
      EndedClean(before, meanwhile, code, budget, View());
    }
  }

  lemma NothingGone(l: Space, ids: seq<nat>)
    ensures Removed(l.files, ids[|ids|..]) == l.files && Gone(l.files, ids[|ids|..]) == {}
  {
  }

  /** Deleting files changes nothing about the members. */
  lemma MembersLeft(l: Space, ids: seq<nat>, code: PlanCode)
    ensures var t := FilesCleaned(l, ids);
            && t.employees == l.employees && t.invitations == l.invitations
            && KeepEmployees(t, code) == KeepEmployees(l, code) && KeepInvitations(t, code) == KeepInvitations(l, code)
            && SurplusEmployees(t, code) == SurplusEmployees(l, code) && SurplusInvitations(t, code) == SurplusInvitations(l, code)
  {
  }

  /** The members to keep and those to remove are all of them; of those to keep, none is to be removed. */
  lemma MembersSplit(l: Space, t: Space, code: PlanCode)
    requires t.employees == l.employees[..KeepEmployees(l, code)] && t.invitations == l.invitations[..KeepInvitations(l, code)]
    ensures t.employees + SurplusEmployees(l, code) == l.employees
    ensures t.invitations + SurplusInvitations(l, code) == l.invitations
    ensures SurplusEmployees(t, code) == [] && SurplusInvitations(t, code) == []
  {
    AllKept(l, t, code);
    hide KeepEmployees, KeepInvitations;
    HeadAndTail(l.employees, KeepEmployees(l, code));
    HeadAndTail(l.invitations, KeepInvitations(l, code));
  }

  lemma AllKept(l: Space, t: Space, code: PlanCode)
    requires |t.employees| == KeepEmployees(l, code) && |t.invitations| == KeepInvitations(l, code)
    ensures KeepEmployees(t, code) == |t.employees| && KeepInvitations(t, code) == |t.invitations|
  {
  }

  lemma HeadAndTail(a: seq<nat>, n: nat)
    requires n <= |a|
    ensures a[..n] + a[n..] == a
  {
  }

  lemma SameHead(a: seq<nat>, b: seq<nat>, rest: seq<nat>)
    requires a + rest == b + rest
    ensures a == b
  {
    assert a == (a + rest)[..|a|] && b == (b + rest)[..|b|];
  }

  /** Why cleanup stops before it deletes anything. */
  function FirstRefusal(s: Space, sub: Subscription, code: PlanCode, token: Preview): Option<Outcome> {
    if Refusal(sub, code).Some? then Refusal(sub, code)
    else if token != PreviewOf(s, code, sub.plan) then Some(PreviewChanged)
    else if NeedsCheckout(sub, code) then Some(PaymentSetup)
    else None
  }

  /** The members or invitations to remove are no longer those of the preview. */
  predicate Noticed(s: Space, l: Space, code: PlanCode) {
    SurplusEmployees(l, code) != SurplusEmployees(s, code) || SurplusInvitations(l, code) != SurplusInvitations(s, code)
  }

  /**
    How a cleanup of the confirmed workspace `s` ends that has started to delete: `t` and `sub` are
    what it leaves, when others leave subscription and workspace as `m` has them.
  */
  ghost predicate EndsAs(s: Space, m: Meanwhile, code: PlanCode, budget: nat, t: Space, sub: Subscription, r: Outcome) {
    var l, ids, refusal := m.space, SurplusFiles(s, code), Refusal(m.sub, code);
    if r == Incomplete then
      sub == m.sub && (budget < 2 * |ids| || refusal == Some(Forbidden)) && exists n :: DeletedFrom(l, t, ids, n)
    else if refusal.Some? then
      r == NotLower && refusal == Some(r) && sub == m.sub && t == FilesCleaned(l, ids)
    else if Noticed(s, l, code) then
      r == MembershipChanged && sub == m.sub && t == FilesCleaned(l, ids)
    else
      && t.files == FilesCleaned(l, ids).files && t.objects == FilesCleaned(l, ids).objects
      && t.employees + SurplusEmployees(s, code) == l.employees && t.invitations + SurplusInvitations(s, code) == l.invitations
      && SurplusEmployees(t, code) == [] && SurplusInvitations(t, code) == []
      && match Changed(m.sub, code, SpaceFits(t, code))
         case Ok(next) => r == Done && sub == next
         case Err(denial) => r == Refused(denial) && sub == m.sub
  }

  /** Undisturbed, a cleanup that gets to the plan change leaves the cleaned workspace, which fits. */
  lemma UndisturbedCleanup(s: Space, sub: Subscription, code: PlanCode, budget: nat, t: Space, after: Subscription, r: Outcome)
    requires SpaceOk(s) && Refusal(sub, code).None? && EndsAs(s, Meanwhile(sub, s), code, budget, t, after, r) && r != Incomplete
    ensures t == Cleaned(s, code) && SpaceFits(t, code).None?
    ensures r == match Changed(sub, code, None) case Ok(_) => Done case Err(denial) => Refused(denial)
  {
    hide Removed, Gone, Elements, Changed, StoppedAt, SurplusFiles, SurplusEmployees, SurplusInvitations, KeepFiles, KeepEmployees,
      KeepInvitations, SpaceFits;
    var ids, cleaned := SurplusFiles(s, code), Cleaned(s, code);
    assert ids[0..] == ids;
    UndisturbedStops(s, FilesCleaned(s, ids), code, 0);
    MembersSplit(s, cleaned, code);
    SameHead(t.employees, cleaned.employees, SurplusEmployees(s, code));
    SameHead(t.invitations, cleaned.invitations, SurplusInvitations(s, code));
    CleanedSpaceFits(s, code, sub.plan);
  }

  lemma CleanedSpaceFits(s: Space, code: PlanCode, current: PlanCode)
    requires Lower(code, current)
    ensures SpaceFits(Cleaned(s, code), code).None?
  {
    hide Elements;
  }

  lemma EndedIncomplete(s: Space, m: Meanwhile, code: PlanCode, budget: nat, t: Space)
    requires budget < 2 * |SurplusFiles(s, code)| && exists n :: DeletedFrom(m.space, t, SurplusFiles(s, code), n)
    ensures EndsAs(s, m, code, budget, t, m.sub, Incomplete)
  {
  }

  lemma EndedEarly(s: Space, m: Meanwhile, code: PlanCode, budget: nat, r: Outcome)
    requires var refusal := Refusal(m.sub, code);
             if refusal.Some? then r == (if refusal == Some(NotLower) then NotLower else Incomplete)
             else r == MembershipChanged && Noticed(s, m.space, code)
    ensures EndsAs(s, m, code, budget, FilesCleaned(m.space, SurplusFiles(s, code)), m.sub, r)
  {
    var l, ids := m.space, SurplusFiles(s, code);
    assert ids[0..] == ids;
    assert DeletedFrom(l, FilesCleaned(l, ids), ids, 0);
  }

  lemma EndedClean(s: Space, m: Meanwhile, code: PlanCode, budget: nat, t: Space)
    requires Refusal(m.sub, code).None? && !Noticed(s, m.space, code)
    requires t.files == FilesCleaned(m.space, SurplusFiles(s, code)).files
    requires t.objects == FilesCleaned(m.space, SurplusFiles(s, code)).objects
    requires t.employees == m.space.employees[..KeepEmployees(m.space, code)]
    requires t.invitations == m.space.invitations[..KeepInvitations(m.space, code)]
    ensures var changed := Changed(m.sub, code, SpaceFits(t, code));
            EndsAs(s, m, code, budget, t, if changed.Ok? then changed.value else m.sub,
                  if changed.Ok? then Done else Refused(changed.error))
  {
    hide Changed, SpaceFits, FilesCleaned, SurplusFiles, SurplusEmployees, SurplusInvitations, KeepEmployees, KeepInvitations;
    MembersSplit(m.space, t, code);
  }
}
