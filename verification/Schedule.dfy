/** Scheduled-window authorization (authz/evaluator.py): the three-anchor search, and when it is the search
    over every calendar day. Times are station-local wall-clock microseconds. */
module Schedule {
  import opened Common

  const DAY: int := 86400 * 1000000
  const MINUTE: int := 60 * 1000000

  datatype When = Weekly(weekday: int) | Dated(day: int)
  datatype Assignment = Assignment(when_: When, start: int, end: int, active: bool)

  /** What the table holds: a weekday or a date, and two times of day. */
  predicate Proper(a: Assignment) {
    0 <= a.start < DAY && 0 <= a.end < DAY && (a.when_.Weekly? ==> 0 <= a.when_.weekday < 7)
  }

  /** Day 0 is a Monday. */
  predicate Falls(a: Assignment, day: int) {
    match a.when_
    case Weekly(w) => day % 7 == w
    case Dated(d) => day == d
  }

  predicate Overnight(a: Assignment) {
    a.end <= a.start
  }

  function EndDay(a: Assignment): int {
    if Overnight(a) then 1 else 0
  }

  /** The effective window of the anchor `day`, half open. */
  predicate InWindow(a: Assignment, day: int, now: int, pre: nat, post: nat) {
    && Falls(a, day)
    && day * DAY + a.start - pre * MINUTE <= now < (day + EndDay(a)) * DAY + a.end + post * MINUTE
  }

  /** `_assignment_covers`: yesterday, today and tomorrow. */
  predicate Covers(a: Assignment, now: int, pre: nat, post: nat) {
    var today := now / DAY;
    InWindow(a, today - 1, now, pre, post) || InWindow(a, today, now, pre, post) || InWindow(a, today + 1, now, pre, post)
  }

  method AssignmentCovers(a: Assignment, now: int, pre: nat, post: nat) returns (covers: bool)
    ensures covers == Covers(a, now, pre, post)
  {
    var today := now / DAY;
    for day := today - 1 to today + 2
      invariant forall d :: today - 1 <= d < day ==> !InWindow(a, d, now, pre, post)
    {
      if InWindow(a, day, now, pre, post) { return true; }
    }
    covers := false;
  }

  /** Some calendar day's window covers the instant. */
  ghost predicate CoversEver(a: Assignment, now: int, pre: nat, post: nat) {
    exists day :: InWindow(a, day, now, pre, post)
  }

  /** How far the allowances may reach before a fourth anchor matters. */
  predicate Reaches(a: Assignment, pre: nat, post: nat) {
    pre * MINUTE <= DAY + a.start && a.end + post * MINUTE <= (2 - EndDay(a)) * DAY
  }

  lemma AnchorIsNear(a: Assignment, day: int, now: int, pre: nat, post: nat)
    requires Proper(a) && Reaches(a, pre, post) && InWindow(a, day, now, pre, post)
    ensures now / DAY - 1 <= day <= now / DAY + 1
  {
  }

  lemma ThreeAnchorsSuffice(a: Assignment, now: int, pre: nat, post: nat)
    requires Proper(a) && Reaches(a, pre, post)
    ensures Covers(a, now, pre, post) <==> CoversEver(a, now, pre, post)
  {
    if CoversEver(a, now, pre, post) {
      var day :| InWindow(a, day, now, pre, post);
      AnchorIsNear(a, day, now, pre, post);
    }
  }

  /** A day the assignment falls on. */
  function SomeDay(a: Assignment): int {
    match a.when_
    case Weekly(w) => w
    case Dated(d) => d
  }

  /** Past the bound there is an instant that a window covers and the three anchors miss. */
  lemma FourthAnchorMissed(a: Assignment, pre: nat, post: nat) returns (now: int)
    requires Proper(a) && !Reaches(a, pre, post)
    ensures CoversEver(a, now, pre, post) && !Covers(a, now, pre, post)
  {
    var day := SomeDay(a);
    if pre * MINUTE > DAY + a.start {
      now := (day - 1) * DAY - 1;
      assert now / DAY == day - 2;
    } else {
      now := (day + 2) * DAY;
      assert now / DAY == day + 2;
      assert (day + EndDay(a)) * DAY == day * DAY + EndDay(a) * DAY;
    }
    assert InWindow(a, day, now, pre, post);
  }

  /** Three anchors are the search over every day, at every instant, exactly within the bound: an allowance before of at
      most a day and the start time, and an end with the allowance after within two days, or one when overnight. */
  lemma ThreeAnchorsExactly(a: Assignment, pre: nat, post: nat)
    requires Proper(a)
    ensures (forall now :: Covers(a, now, pre, post) <==> CoversEver(a, now, pre, post)) <==> Reaches(a, pre, post)
  {
    if Reaches(a, pre, post) {
      forall now ensures Covers(a, now, pre, post) <==> CoversEver(a, now, pre, post) {
        ThreeAnchorsSuffice(a, now, pre, post);
      }
    } else {
      var now := FourthAnchorMissed(a, pre, post);
      assert !(Covers(a, now, pre, post) <==> CoversEver(a, now, pre, post));
    }
  }

  // -- the decision -------------------------------------------------------------------------------------------------

  datatype Decision = Allowed | Unauthenticated | Disabled | CapabilityMissing | NoAssignment | InactiveAssignment
                    | OutsideWindow

  /** `_check_schedule` over one account's assignments. */
  method CheckSchedule(assignments: seq<Assignment>, now: int, pre: nat, post: nat) returns (d: Decision)
    ensures d == ScheduleDecision(assignments, now, pre, post)
  {
    if assignments == [] { return NoAssignment; }
    var inactive := false;
    for i := 0 to |assignments|
      invariant forall k :: 0 <= k < i ==> !(assignments[k].active && Covers(assignments[k], now, pre, post))
      invariant inactive == exists k :: 0 <= k < i && !assignments[k].active && Covers(assignments[k], now, pre, post)
    {
      var covers := AssignmentCovers(assignments[i], now, pre, post);
      if covers && assignments[i].active { return Allowed; }
      if covers { inactive := true; }
    }
    d := if inactive then InactiveAssignment else OutsideWindow;
  }

  predicate Covered(assignments: seq<Assignment>, active: bool, now: int, pre: nat, post: nat) {
    exists k :: 0 <= k < |assignments| && assignments[k].active == active && Covers(assignments[k], now, pre, post)
  }

  function ScheduleDecision(assignments: seq<Assignment>, now: int, pre: nat, post: nat): Decision {
    if assignments == [] then NoAssignment
    else if Covered(assignments, true, now, pre, post) then Allowed
    else if Covered(assignments, false, now, pre, post) then InactiveAssignment
    else OutsideWindow
  }

  datatype Account = Account(authenticated: bool, active: bool, superuser: bool, staff: bool, groups: set<nat>)
  datatype SchedulePolicy = Enforce | Ignore | Strict

  /** `authorize` for a known capability: `roles` is the group-capability map, `reserved` the capabilities staff get
      only by role, `enforced` the station switch. */
  function Authorize(user: Account, capability: nat, needsSchedule: bool, roles: map<nat, set<nat>>, reserved: set<nat>,
                     policy: SchedulePolicy, enforced: bool, assignments: seq<Assignment>, now: int, pre: nat, post: nat)
    : Decision
  {
    if !user.authenticated then Unauthenticated
    else if !user.active then Disabled
    else if user.superuser then Allowed
    else if user.staff && capability !in reserved then Allowed
    else if !(exists g :: g in user.groups && g in roles && capability in roles[g]) then CapabilityMissing
    else if !needsSchedule || policy.Ignore? || (policy.Enforce? && !enforced) then Allowed
    else ScheduleDecision(assignments, now, pre, post)
  }

  predicate ByRole(user: Account, capability: nat, roles: map<nat, set<nat>>) {
    exists g :: g in user.groups && g in roles && capability in roles[g]
  }

  predicate Bypasses(user: Account, capability: nat, reserved: set<nat>) {
    user.superuser || (user.staff && capability !in reserved)
  }

  /** Possession never replaces the window and the window never replaces possession: without a bypass, a capability that
      needs the schedule, when the schedule is enforced, may be exercised exactly by an active account that holds it
      through a role while some active assignment's window, on whatever calendar day, covers the instant. */
  lemma ScheduledAccessExactly(user: Account, capability: nat, roles: map<nat, set<nat>>, reserved: set<nat>,
                               policy: SchedulePolicy, enforced: bool, assignments: seq<Assignment>, now: int, pre: nat,
                               post: nat)
    requires policy.Strict? || (policy.Enforce? && enforced)
    requires forall k :: 0 <= k < |assignments| ==> Proper(assignments[k]) && Reaches(assignments[k], pre, post)
    ensures Authorize(user, capability, true, roles, reserved, policy, enforced, assignments, now, pre, post) == Allowed <==>
            && user.authenticated && user.active
            && (|| Bypasses(user, capability, reserved)
                || (&& ByRole(user, capability, roles)
                    && exists k :: 0 <= k < |assignments| && assignments[k].active &&
                                   CoversEver(assignments[k], now, pre, post)))
  {
    forall k | 0 <= k < |assignments|
      ensures Covers(assignments[k], now, pre, post) <==> CoversEver(assignments[k], now, pre, post)
    {
      ThreeAnchorsSuffice(assignments[k], now, pre, post);
    }
    hide Covers, CoversEver;
  }

  /** The schedule is asked about: the capability needs it, and it is enforced. */
  predicate Scheduled(needsSchedule: bool, policy: SchedulePolicy, enforced: bool) {
    needsSchedule && (policy.Strict? || (policy.Enforce? && enforced))
  }

  ghost predicate CoveredEver(assignments: seq<Assignment>, active: bool, now: int, pre: nat, post: nat) {
    exists k :: 0 <= k < |assignments| && assignments[k].active == active && CoversEver(assignments[k], now, pre, post)
  }

  lemma CoveredIsEver(assignments: seq<Assignment>, active: bool, now: int, pre: nat, post: nat)
    requires forall k :: 0 <= k < |assignments| ==> Proper(assignments[k]) && Reaches(assignments[k], pre, post)
    ensures Covered(assignments, active, now, pre, post) <==> CoveredEver(assignments, active, now, pre, post)
  {
    forall k | 0 <= k < |assignments|
      ensures Covers(assignments[k], now, pre, post) <==> CoversEver(assignments[k], now, pre, post)
    {
      ThreeAnchorsSuffice(assignments[k], now, pre, post);
    }
    hide Covers, CoversEver;
    if Covered(assignments, active, now, pre, post) {
      var k :| 0 <= k < |assignments| && assignments[k].active == active && Covers(assignments[k], now, pre, post);
      assert CoversEver(assignments[k], now, pre, post);
    }
    if CoveredEver(assignments, active, now, pre, post) {
      var k :| 0 <= k < |assignments| && assignments[k].active == active && CoversEver(assignments[k], now, pre, post);
      assert Covers(assignments[k], now, pre, post);
    }
  }

  /** Every answer there is, and when it is given: identity first, then possession; where no schedule is asked about,
      possession is enough; and only then the calendar, an inactive assignment in whose window one is being told apart from
      being outside every window. */
  lemma AuthorizeExactly(user: Account, capability: nat, needsSchedule: bool, roles: map<nat, set<nat>>, reserved: set<nat>,
                         policy: SchedulePolicy, enforced: bool, assignments: seq<Assignment>, now: int, pre: nat,
                         post: nat)
    requires forall k :: 0 <= k < |assignments| ==> Proper(assignments[k]) && Reaches(assignments[k], pre, post)
    ensures var d := Authorize(user, capability, needsSchedule, roles, reserved, policy, enforced, assignments, now, pre, post);
            var known := user.authenticated && user.active;
            var holds := Bypasses(user, capability, reserved) || ByRole(user, capability, roles);
            var asked := known && !Bypasses(user, capability, reserved) && holds && Scheduled(needsSchedule, policy, enforced);
            && (d.Unauthenticated? <==> !user.authenticated) && (d.Disabled? <==> user.authenticated && !user.active)
            && (d.CapabilityMissing? <==> known && !holds)
            && (d.Allowed? <==> known && holds && (asked ==> CoveredEver(assignments, true, now, pre, post)))
            && (d.NoAssignment? <==> asked && assignments == [])
            && (d.InactiveAssignment? <==> asked && !CoveredEver(assignments, true, now, pre, post) &&
                                           CoveredEver(assignments, false, now, pre, post))
            && (d.OutsideWindow? <==> asked && assignments != [] && !CoveredEver(assignments, true, now, pre, post) &&
                                      !CoveredEver(assignments, false, now, pre, post))
  {
    CoveredIsEver(assignments, true, now, pre, post);
    CoveredIsEver(assignments, false, now, pre, post);
    if assignments == [] {
      assert !CoveredEver(assignments, true, now, pre, post) && !CoveredEver(assignments, false, now, pre, post);
    }
    hide Covered, CoveredEver;
  }
}
