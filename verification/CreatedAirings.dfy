/** The three calls that create an airing (materializing a due one, reconciling a failed stinger, Replay Now), stated on
    the tables the sweep leaves: when an airing is created, when an open one is joined, why none is, and what a created
    airing is made of. */
module CreatedAirings {
  import opened Common
  import opened Ordering
  import opened Composition
  import opened Services
  import opened DomainInvariants
  import opened ServiceEffects
  import opened AiringEffects

  // -- what an airing is made of ------------------------------------------------------------------------------------

  /** Urgent before public address; then the message activated first; then the lower UUID. */
  predicate AirsBefore(a: Component, b: Component) {
    if a.kind != b.kind then a.kind.Urgent?
    else if a.activatedAt != b.activatedAt then
      a.activatedAt.None? || (b.activatedAt.Some? && a.activatedAt.value < b.activatedAt.value)
    else a.message < b.message
  }

  predicate InAirOrder(cs: seq<Component>) {
    forall i, j :: 0 <= i < j < |cs| ==> AirsBefore(cs[i], cs[j])
  }

  /** The airing of everything ACTIVE: each message once, in order, behind the alert if one leads, and its length. */
  ghost predicate AirsTheActive(d: Domain, reading: StingerReading, s: Snapshot) {
    && ActiveIds(d) != {} && Fits(d.policy, d.messages, ActiveIds(d), reading)
    && Reads(d.messages, ActiveIds(d), s.components) && InAirOrder(s.components)
    && s.stinger == (if AlertLeads(d.policy, d.messages, ActiveIds(d), reading) then Some(reading.pin) else None)
    && s.accountedMs == AiringMs(d.policy, d.messages, ActiveIds(d), reading)
  }

  /** A new row: it waits for its render, is of the current generation, and nothing has happened to it. */
  predicate IsNew(e: Execution, policy: Policy, reason: Reason, dueAt: Time, createdAt: Time) {
    && e.state.PendingRender? && e.open && e.generation == policy.generation && e.reason == reason
    && e.dueAt == dueAt && e.createdAt == createdAt && e.componentCount == |e.snapshot.components|
    && e.digest.of.parts == Parts(e.snapshot.components) && e.digest.of.stinger == e.snapshot.stinger
    && e.mix.None? && e.token.None? && e.attempts == 0 && e.engine.None? && e.failure.None? && e.confirmedMs.None?
    && e.readyAt.None? && e.dispatchedAt.None? && e.acceptedAt.None? && e.claimedAt.None? && e.startedAt.None?
    && e.endedAt.None? && e.terminalAt.None?
  }

  /** One row more, a new airing of everything ACTIVE; the other tables but the history are as they were. */
  ghost predicate Creates(r: Domain, n: Domain, id: ExecutionId, reading: StingerReading, reason: Reason, dueAt: Time,
                          createdAt: Time)
  {
    && id !in r.executions && n.executions.Keys == r.executions.Keys + {id}
    && (forall x :: x in r.executions ==> n.executions[x] == r.executions[x])
    && IsNew(n.executions[id], r.policy, reason, dueAt, createdAt) && AirsTheActive(r, reading, n.executions[id].snapshot)
    && n.policy == r.policy && n.messages == r.messages && n.airedIn == r.airedIn
  }

  lemma ActiveAreComponents(d: Domain)
    ensures ActiveComponents(d.messages) == ComponentsOf(d.messages, ActiveIds(d))
    ensures ActiveComponents(d.messages) == {} <==> ActiveIds(d) == {}
  {
    forall c ensures c in ActiveComponents(d.messages) <==> c in ComponentsOf(d.messages, ActiveIds(d)) {
      if c in ComponentsOf(d.messages, ActiveIds(d)) {
        var m :| m in ActiveIds(d) && c == ComponentOf(m, d.messages[m]);
        assert d.messages[m].state.Active?;
      }
      if c in ActiveComponents(d.messages) {
        var m :| m in d.messages && d.messages[m].state.Active? && c == ComponentOf(m, d.messages[m]);
        assert m in ActiveIds(d);
      }
    }
    forall m | m in ActiveIds(d) ensures ActiveComponents(d.messages) != {} {
      assert ComponentOf(m, d.messages[m]) in ActiveComponents(d.messages);
    }
  }

  lemma SortedAirsInOrder(rows: map<MessageId, Message>, ids: set<MessageId>, cs: seq<Component>)
    requires Reads(rows, ids, cs) && Sorted(cs, Precedes)
    ensures InAirOrder(cs)
  {
    forall i, j | 0 <= i < j < |cs| ensures AirsBefore(cs[i], cs[j]) {
      assert Precedes(cs[i], cs[j]);
    }
  }

  lemma SnapshotOfActive(policy: Policy, rows: map<MessageId, Message>, ids: set<MessageId>, reading: StingerReading)
    requires ids <= rows.Keys && ids != {} && |ids| <= ABSOLUTE_MAX_ACTIVE_MESSAGES
    ensures var cs := ComponentsOf(rows, ids);
            var built := Aggregate(cs, StingerFor(policy, cs, reading));
            && built.Built? && Reads(rows, ids, built.snapshot.components) && InAirOrder(built.snapshot.components)
            && built.snapshot.stinger == (if AlertLeads(policy, rows, ids, reading) then Some(reading.pin) else None)
            && built.snapshot.accountedMs == AiringMs(policy, rows, ids, reading)
  {
    var cs := ComponentsOf(rows, ids);
    var listing := Listing(cs);
    var sorted := SortBy(listing, Precedes);
    PrecedesOrders();
    SortByKeeps(listing, Precedes);
    ListingReads(rows, ids, sorted);
    SortedAirsInOrder(rows, ids, sorted);
    ReadingCounts(rows, ids, sorted);
    UrgentReads(rows, ids, sorted);
    AlertIsTheStinger(policy, rows, ids, reading);
    AccountedIsAiring(policy, rows, ids, reading, sorted);
    hide Reads, ComponentsOf, Listing, InAirOrder, AiringMs, SortBy, Precedes, Total, AirtimeMs, Sorted, KeyOrder, StingerFor,
         HasUrgent;
  }

  /** What the services compute over the active set, said of the rows. */
  lemma ActiveSetVerdict(d: Domain, reading: StingerReading)
    requires DomainOk(d)
    ensures var cs := ActiveComponents(d.messages);
            var stinger := StingerFor(d.policy, cs, reading);
            var unfit := Eligibility(d.policy, cs, stinger);
            && (cs == {} <==> ActiveIds(d) == {})
            && (unfit.None? <==> Fits(d.policy, d.messages, ActiveIds(d), reading))
            && (unfit.Some? ==> Explains(d.policy, d.messages, ActiveIds(d), unfit.value))
            && (unfit.None? && cs != {} ==>
                  Aggregate(cs, stinger).Built? && AirsTheActive(d, reading, Aggregate(cs, stinger).snapshot))
  {
    CeilingHolds(d);
    ActiveAreComponents(d);
    hide DomainOk, ActiveComponents;
    EligibilityIsFitting(d.policy, d.messages, ActiveIds(d), reading);
    if !Fits(d.policy, d.messages, ActiveIds(d), reading) {
      WhyItDoesNotFit(d.policy, d.messages, ActiveIds(d), reading);
    } else if ActiveIds(d) != {} {
      SnapshotOfActive(d.policy, d.messages, ActiveIds(d), reading);
    }
    hide Eligibility, Aggregate, StingerFor, ComponentsOf, Explains, Reads, InAirOrder, AiringMs, ActiveIds;
  }

  lemma CeilingHolds(d: Domain)
    requires DomainOk(d)
    ensures d.policy.limits.maxActive <= ABSOLUTE_MAX_ACTIVE_MESSAGES
  {
    hide MessagesOk, ExecutionsOk, ContentOk, CadenceOk, HistoryOk, OwnedOk;
  }

  /** A new row with such a snapshot is such an airing. */
  lemma CreateCreates(r: Domain, n: Domain, id: ExecutionId, s: Snapshot, reading: StingerReading, reason: Reason, dueAt: Time,
                      createdAt: Time)
    requires id !in r.executions && AirsTheActive(r, reading, s)
    requires n == Create(r, id, s, reason, dueAt, createdAt).(requests := n.requests, reconciled := n.reconciled,
                                                             reconciles := n.reconciles)
    ensures Creates(r, n, id, reading, reason, dueAt, createdAt)
  {
    hide AirsTheActive;
  }

  // -- scheduled airings --------------------------------------------------------------------------------------------

  predicate AnOpenAiring(d: Domain) {
    exists x :: x in d.executions && Unfinished(d.executions[x].state)
  }

  predicate IsDue(m: Message, now: Time) {
    m.state.Active? && m.nextDueAt.Some? && m.nextDueAt.value <= now
  }

  predicate SomethingDue(d: Domain, now: Time) {
    exists m :: m in d.messages && IsDue(d.messages[m], now)
  }

  /** When the first ACTIVE message became due. */
  predicate IsFirstDue(d: Domain, at: Time, now: Time) {
    && (exists m :: m in d.messages && IsDue(d.messages[m], now) && d.messages[m].nextDueAt.value == at)
    && forall m :: m in d.messages && IsDue(d.messages[m], now) ==> at <= d.messages[m].nextDueAt.value
  }

  /** The newest execution is a blocking failure of this same airing. */
  ghost predicate WouldRepeatFailure(d: Domain, reading: StingerReading, blocking: set<FailureCode>) {
    exists x, s :: IsNewest(d.executions, x) && AirsTheActive(d, reading, s) && RepeatsAs(d, x, s, blocking)
  }

  predicate RepeatsAs(d: Domain, x: ExecutionId, s: Snapshot, blocking: set<FailureCode>)
    requires x in d.executions
  {
    && d.executions[x].state.Failed? && d.executions[x].failure.Some? && d.executions[x].failure.value in blocking
    && d.executions[x].generation == d.policy.generation
    && d.executions[x].digest.of.parts == Parts(s.components) && d.executions[x].digest.of.stinger == s.stinger
  }

  lemma SameFirst(rows: map<MessageId, Message>, ids: set<MessageId>, a: seq<Component>, b: seq<Component>)
    requires Reads(rows, ids, a) && Reads(rows, ids, b) && InAirOrder(a) && InAirOrder(b) && a != [] && b != []
    ensures a[0] == b[0]
  {
    var i :| 0 <= i < |a| && a[i].message == b[0].message;
    var j :| 0 <= j < |b| && b[j].message == a[0].message;
    assert a[i] == b[0] && b[j] == a[0];
    assert AirsBefore(a[0], b[0]) || i == 0;
    assert AirsBefore(b[0], a[0]) || j == 0;
    hide Reads, InAirOrder, ComponentOf;
  }

  /** There is one airing of everything ACTIVE: one order, one alert, one length. */
  lemma {:induction false} OneOrder(rows: map<MessageId, Message>, ids: set<MessageId>, a: seq<Component>, b: seq<Component>)
    requires Reads(rows, ids, a) && Reads(rows, ids, b) && InAirOrder(a) && InAirOrder(b)
    ensures a == b
    decreases |a|
  {
    ReadingCounts(rows, ids, a);
    ReadingCounts(rows, ids, b);
    if a != [] {
      SameFirst(rows, ids, a, b);
      TailReads(rows, ids, a);
      TailReads(rows, ids, b);
      hide Reads, InAirOrder;
      OneOrder(rows, ids - {a[0].message}, a[1..], b[1..]);
      assert a == [a[0]] + a[1..] && b == [b[0]] + b[1..];
    }
  }

  lemma TailReads(rows: map<MessageId, Message>, ids: set<MessageId>, a: seq<Component>)
    requires Reads(rows, ids, a) && InAirOrder(a) && a != []
    ensures Reads(rows, ids - {a[0].message}, a[1..]) && InAirOrder(a[1..])
  {
    var rest := a[1..];
    forall x | x in ids - {a[0].message} ensures exists i :: 0 <= i < |rest| && rest[i].message == x {
      var i :| 0 <= i < |a| && a[i].message == x;
      assert rest[i - 1].message == x;
    }
  }

  lemma BlockedIsRepeated(d: Domain, s: Snapshot, reading: StingerReading, blocking: set<FailureCode>)
    requires AirsTheActive(d, reading, s)
    ensures var blocked := BlockingFailure(d, DigestOf(s), blocking);
            && (blocked.Some? <==> WouldRepeatFailure(d, reading, blocking))
            && (blocked.Some? ==> NewestFailedWith(d, blocked.value))
  {
    if exists x :: IsNewest(d.executions, x) && Blocks(d, x, DigestOf(s), blocking) {
      var x :| IsNewest(d.executions, x) && Blocks(d, x, DigestOf(s), blocking);
      assert d.executions[x].digest == DigestOf(s);
      assert WouldRepeatFailure(d, reading, blocking);
    }
    if WouldRepeatFailure(d, reading, blocking) {
      var x, t :| IsNewest(d.executions, x) && AirsTheActive(d, reading, t) && RepeatsAs(d, x, t, blocking);
      OneOrder(d.messages, ActiveIds(d), s.components, t.components);
      assert d.executions[x].digest == DigestOf(s);
      assert Blocks(d, x, DigestOf(s), blocking);
    }
  }

  lemma DueIsDue(d: Domain, now: Time)
    ensures DueTimes(d.messages, now) == {} <==> !SomethingDue(d, now)
    ensures SomethingDue(d, now) ==> IsFirstDue(d, Earliest(DueTimes(d.messages, now)), now)
  {
    forall m | m in d.messages && IsDue(d.messages[m], now) ensures d.messages[m].nextDueAt.value in DueTimes(d.messages, now) {
    }
    if DueTimes(d.messages, now) != {} {
      var at := Earliest(DueTimes(d.messages, now));
      var m :| m in d.messages && IsDue(d.messages[m], now) && d.messages[m].nextDueAt.value == at;
      assert SomethingDue(d, now);
    }
  }

  /** What a scheduling pass does, `r` being the tables after the sweep: an unfinished airing is joined; else, when a
      message is due and the active set fits and did not just fail, everything ACTIVE is aired, due when the first of it
      became due. */
  ghost predicate Materialized(d: Domain, r: Domain, o: Outcome, id: ExecutionId, now: Time, createdAt: Time,
                               reading: StingerReading, blocking: set<FailureCode>)
  {
    if AnOpenAiring(r) then o.domain == r && Joins(r, o.reply)
    else if !SomethingDue(r, now) then o == Outcome(r, NoAiring)
    else if !Fits(r.policy, r.messages, ActiveIds(r), reading) then o.domain == r && SaysWhy(r, o.reply)
    else if WouldRepeatFailure(r, reading, blocking) then
      o.domain == r && o.reply.Refused? && o.reply.code.CompositionBlocked? && NewestFailedWith(r, o.reply.code.failure)
    else if id in r.executions then o == Outcome(d, Refused(IdConflict))
    else
      && o.reply == Airing(id, WasCreated) && o.domain == r.(executions := o.domain.executions) && id in o.domain.executions
      && Creates(r, o.domain, id, reading, Scheduled, o.domain.executions[id].dueAt, createdAt)
      && IsFirstDue(r, o.domain.executions[id].dueAt, now)
  }

  ghost predicate NewestFailedWith(r: Domain, code: FailureCode) {
    exists x :: IsNewest(r.executions, x) && r.executions[x].failure == Some(code)
  }

  /** The answer names the airing that is open. */
  predicate Joins(r: Domain, reply: Reply) {
    && reply.Airing? && reply.how.WasCoalesced?
    && reply.execution in r.executions && Unfinished(r.executions[reply.execution].state)
  }

  /** The answer says why the active set does not fit. */
  predicate SaysWhy(r: Domain, reply: Reply) {
    && reply.Refused? && reply.code.CompositionIneligible?
    && Explains(r.policy, r.messages, ActiveIds(r), reply.code.why)
  }

  lemma MaterializeWaits(d: Domain, r: Domain, id: ExecutionId, now: Time, createdAt: Time, reading: StingerReading,
                         blocking: set<FailureCode>)
    requires DomainOk(r) && r == Refresh(d, now)
    requires AnOpenAiring(r) || !SomethingDue(r, now) || !Fits(r.policy, r.messages, ActiveIds(r), reading)
    ensures Materialized(d, r, Materialize(d, id, now, createdAt, reading, blocking), id, now, createdAt, reading, blocking)
  {
    hide DomainOk, Refresh, Eligibility, Aggregate, StingerFor, BlockingFailure, ActiveComponents, DueTimes, Fits,
         AirsTheActive, WouldRepeatFailure, NewestFailedWith, IsFirstDue, ActiveIds, SomethingDue, Explains, Creates, Create,
         AnOpenAiring, OpenExecution;
    ActiveSetVerdict(r, reading);
    DueIsDue(r, now);
    OpenIsOpen(r);
  }

  lemma MaterializeMakes(d: Domain, r: Domain, id: ExecutionId, now: Time, createdAt: Time, reading: StingerReading,
                         blocking: set<FailureCode>)
    requires DomainOk(r) && r == Refresh(d, now)
    requires !AnOpenAiring(r) && SomethingDue(r, now) && Fits(r.policy, r.messages, ActiveIds(r), reading)
    ensures Materialized(d, r, Materialize(d, id, now, createdAt, reading, blocking), id, now, createdAt, reading, blocking)
  {
    hide DomainOk, Refresh, Eligibility, Aggregate, StingerFor, BlockingFailure, ActiveComponents, DueTimes, Fits,
         AirsTheActive, WouldRepeatFailure, NewestFailedWith, IsFirstDue, ActiveIds, SomethingDue, Explains, Creates,
         AnOpenAiring, OpenExecution, DigestOf;
    ActiveSetVerdict(r, reading);
    DueIsDue(r, now);
    OpenIsOpen(r);
    DueIsActive(r, now);
    var cs := ActiveComponents(r.messages);
    var s := Aggregate(cs, StingerFor(r.policy, cs, reading)).snapshot;
    BlockedIsRepeated(r, s, reading, blocking);
    var at := Earliest(DueTimes(r.messages, now));
    if id !in r.executions {
      CreateIs(r, id, s, Scheduled, at, createdAt);
      CreateCreates(r, Create(r, id, s, Scheduled, at, createdAt), id, s, reading, Scheduled, at, createdAt);
    }
    hide Create;
  }

  lemma CreateIs(r: Domain, id: ExecutionId, s: Snapshot, reason: Reason, dueAt: Time, createdAt: Time)
    ensures var n := Create(r, id, s, reason, dueAt, createdAt);
            && n == r.(executions := n.executions) && id in n.executions && n.executions[id].dueAt == dueAt
  {
  }

  /** `materialize_due_execution`. */
  lemma MaterializeDoes(d: Domain, id: ExecutionId, now: Time, createdAt: Time, reading: StingerReading,
                        blocking: set<FailureCode>)
    requires DomainOk(d)
    ensures Materialized(d, Serve(d, ExpireDueMessages, now).domain,
                         Serve(d, MaterializeDue(id, createdAt, reading, blocking), now),
                         id, now, createdAt, reading, blocking)
  {
    hide DomainOk, Refresh, ExpireLocked, Materialize, Materialized;
    RefreshKeeps(d, now);
    var r := Refresh(d, now);
    if AnOpenAiring(r) || !SomethingDue(r, now) || !Fits(r.policy, r.messages, ActiveIds(r), reading) {
      MaterializeWaits(d, r, id, now, createdAt, reading, blocking);
    } else {
      MaterializeMakes(d, r, id, now, createdAt, reading, blocking);
    }
  }

  lemma OpenIsOpen(d: Domain)
    ensures OpenExecution(d).Some? <==> AnOpenAiring(d)
    ensures OpenExecution(d).Some? ==>
              OpenExecution(d).value in d.executions && Unfinished(d.executions[OpenExecution(d).value].state)
  {
  }

  lemma DueIsActive(d: Domain, now: Time)
    requires SomethingDue(d, now)
    ensures ActiveIds(d) != {}
  {
    var m :| m in d.messages && IsDue(d.messages[m], now);
    assert m in ActiveIds(d);
  }

  // -- reconciliation -----------------------------------------------------------------------------------------------

  /** What reconciling a failed occurrence does: the answer once given is repeated; otherwise one is recorded, none when
      the composition has moved on or nothing is ACTIVE, the open airing when there is one, else one new airing, due now. */
  ghost predicate Reconciled(d: Domain, r: Domain, o: Outcome, failed: ExecutionId, id: ExecutionId, now: Time,
                             createdAt: Time, reading: StingerReading)
  {
    if !(failed in d.executions && StingerFailed(d.executions[failed])) then o.reply.Refused? && o.domain == d
    else if failed in d.reconciled then
      o.domain == d &&
      o.reply == if d.reconciled[failed].Some? then Airing(d.reconciled[failed].value, WasRepeated) else NoAiring
    else if d.executions[failed].generation != r.policy.generation then
      o == Outcome(r.(reconciled := r.reconciled[failed := None]), NoAiring)
    else if AnOpenAiring(r) then
      Joins(r, o.reply) && o.domain == r.(reconciled := r.reconciled[failed := Some(o.reply.execution)])
    else if ActiveIds(r) == {} then o == Outcome(r.(reconciled := r.reconciled[failed := None]), NoAiring)
    else if !Fits(r.policy, r.messages, ActiveIds(r), reading) then o.domain == r && SaysWhy(r, o.reply)
    else if id in r.executions then o == Outcome(d, Refused(IdConflict))
    else
      && o.reply == Airing(id, WasCreated) && Creates(r, o.domain, id, reading, Reconcile, now, createdAt)
      && o.domain.reconciled == r.reconciled[failed := Some(id)] && o.domain.reconciles == r.reconciles[id := failed]
      && o.domain.requests == r.requests
  }

  lemma ReconcileAnswers(d: Domain, r: Domain, failed: ExecutionId, id: ExecutionId, now: Time, createdAt: Time,
                         reading: StingerReading)
    requires DomainOk(r) && r == Refresh(d, now)
    requires !Fits(r.policy, r.messages, ActiveIds(r), reading) || ActiveIds(r) == {} || AnOpenAiring(r)
    ensures Reconciled(d, r, ReconcileFailure(d, failed, id, now, createdAt, reading), failed, id, now, createdAt, reading)
  {
    hide DomainOk, Refresh, Eligibility, Aggregate, StingerFor, ActiveComponents, Fits, AirsTheActive, ActiveIds, Explains,
         Creates, Create, AnOpenAiring, OpenExecution, WithSuccessor;
    ActiveSetVerdict(r, reading);
    OpenIsOpen(r);
  }

  lemma ReconcileMakes(d: Domain, r: Domain, failed: ExecutionId, id: ExecutionId, now: Time, createdAt: Time,
                       reading: StingerReading)
    requires DomainOk(r) && r == Refresh(d, now)
    requires Fits(r.policy, r.messages, ActiveIds(r), reading) && ActiveIds(r) != {} && !AnOpenAiring(r)
    ensures Reconciled(d, r, ReconcileFailure(d, failed, id, now, createdAt, reading), failed, id, now, createdAt, reading)
  {
    hide DomainOk, Refresh, Eligibility, Aggregate, StingerFor, ActiveComponents, Fits, AirsTheActive, ActiveIds, Explains,
         Creates, AnOpenAiring, OpenExecution, WithSuccessor;
    ActiveSetVerdict(r, reading);
    OpenIsOpen(r);
    var cs := ActiveComponents(r.messages);
    var s := Aggregate(cs, StingerFor(r.policy, cs, reading)).snapshot;
    if id !in r.executions {
      SuccessorIs(r, id, s, failed, now, createdAt);
      CreateCreates(r, WithSuccessor(r, id, s, failed, now, createdAt), id, s, reading, Reconcile, now, createdAt);
    }
    hide Create;
  }

  lemma SuccessorIs(r: Domain, id: ExecutionId, s: Snapshot, failed: ExecutionId, now: Time, createdAt: Time)
    ensures var n := WithSuccessor(r, id, s, failed, now, createdAt);
            && n == Create(r, id, s, Reconcile, now, createdAt).(requests := n.requests, reconciled := n.reconciled,
                                                                reconciles := n.reconciles)
            && n.reconciled == r.reconciled[failed := Some(id)] && n.reconciles == r.reconciles[id := failed]
            && n.requests == r.requests
  {
  }

  /** `reconcile_stinger_failure`. */
  lemma ReconcileDoes(d: Domain, failed: ExecutionId, id: ExecutionId, now: Time, createdAt: Time, reading: StingerReading)
    requires DomainOk(d)
    ensures Reconciled(d, Serve(d, ExpireDueMessages, now).domain,
                       Serve(d, ReconcileStinger(failed, id, createdAt, reading), now),
                       failed, id, now, createdAt, reading)
  {
    hide DomainOk, Refresh, ExpireLocked, ReconcileFailure, Reconciled;
    RefreshKeeps(d, now);
    var r := Refresh(d, now);
    if Fits(r.policy, r.messages, ActiveIds(r), reading) && ActiveIds(r) != {} && !AnOpenAiring(r) {
      ReconcileMakes(d, r, failed, id, now, createdAt, reading);
    } else {
      ReconcileAnswers(d, r, failed, id, now, createdAt, reading);
    }
  }

  // -- Replay Now ---------------------------------------------------------------------------------------------------

  /** What Replay Now does: a known request gets its own answer again; an open airing of this composition is joined, one of
      an older composition is in the way; else everything ACTIVE is aired, due now, and the request remembers it. */
  ghost predicate Replayed(d: Domain, r: Domain, o: Outcome, actor: Actor, request: Token, id: ExecutionId, now: Time,
                           createdAt: Time, reading: StingerReading)
  {
    if !actor.control then o == Outcome(d, Refused(NotPermitted))
    else if request in d.requests then
      o.domain == d &&
      o.reply == if d.requests[request].actor == actor.id then Airing(d.requests[request].execution, WasRepeated)
                 else Refused(TokenConflict)
    else if AnOpenAiring(r) then
      exists x :: x in r.executions && Unfinished(r.executions[x].state) &&
        o == if r.executions[x].generation == r.policy.generation
             then Outcome(r.(requests := r.requests[request := Request(actor.id, x, false)]), Airing(x, WasCoalesced))
             else Outcome(d, Refused(ExecutionBusy))
    else if ActiveIds(r) == {} then o == Outcome(d, Refused(NothingIsActive))
    else if !Fits(r.policy, r.messages, ActiveIds(r), reading) then o.domain == r && SaysWhy(r, o.reply)
    else if id in r.executions then o == Outcome(d, Refused(IdConflict))
    else
      && o.reply == Airing(id, WasCreated) && Creates(r, o.domain, id, reading, Manual, now, createdAt)
      && o.domain.requests == r.requests[request := Request(actor.id, id, true)]
      && o.domain.reconciled == r.reconciled && o.domain.reconciles == r.reconciles
  }

  lemma ReplayAnswers(d: Domain, r: Domain, actor: Actor, request: Token, id: ExecutionId, now: Time, createdAt: Time,
                      reading: StingerReading)
    requires DomainOk(r) && r == Refresh(d, now)
    requires !Fits(r.policy, r.messages, ActiveIds(r), reading) || ActiveIds(r) == {} || AnOpenAiring(r)
    ensures Replayed(d, r, Replay(d, actor, request, id, now, createdAt, reading), actor, request, id, now, createdAt, reading)
  {
    hide DomainOk, Refresh, Eligibility, Aggregate, StingerFor, ActiveComponents, Fits, AirsTheActive, ActiveIds, Explains,
         Creates, Create, AnOpenAiring, OpenExecution;
    ActiveSetVerdict(r, reading);
    OpenIsOpen(r);
  }

  lemma ReplayMakes(d: Domain, r: Domain, actor: Actor, request: Token, id: ExecutionId, now: Time, createdAt: Time,
                    reading: StingerReading)
    requires DomainOk(r) && r == Refresh(d, now)
    requires Fits(r.policy, r.messages, ActiveIds(r), reading) && ActiveIds(r) != {} && !AnOpenAiring(r)
    ensures Replayed(d, r, Replay(d, actor, request, id, now, createdAt, reading), actor, request, id, now, createdAt, reading)
  {
    hide DomainOk, Refresh, Eligibility, Aggregate, StingerFor, ActiveComponents, Fits, AirsTheActive, ActiveIds, Explains,
         Creates, AnOpenAiring, OpenExecution;
    ActiveSetVerdict(r, reading);
    OpenIsOpen(r);
    var cs := ActiveComponents(r.messages);
    var s := Aggregate(cs, StingerFor(r.policy, cs, reading)).snapshot;
    if id !in r.executions {
      var c := Create(r, id, s, Manual, now, createdAt);
      var n := c.(requests := c.requests[request := Request(actor.id, id, true)]);
      CreateIs(r, id, s, Manual, now, createdAt);
      CreateCreates(r, n, id, s, reading, Manual, now, createdAt);
    }
    hide Create;
  }

  /** `request_manual_replay_outcome`. */
  lemma ReplayDoes(d: Domain, actor: Actor, request: Token, id: ExecutionId, now: Time, createdAt: Time,
                   reading: StingerReading)
    requires DomainOk(d)
    ensures Replayed(d, Serve(d, ExpireDueMessages, now).domain,
                     Serve(d, RequestReplay(actor, request, id, createdAt, reading), now),
                     actor, request, id, now, createdAt, reading)
  {
    hide DomainOk, Refresh, ExpireLocked, Replay, Replayed;
    RefreshKeeps(d, now);
    var r := Refresh(d, now);
    if Fits(r.policy, r.messages, ActiveIds(r), reading) && ActiveIds(r) != {} && !AnOpenAiring(r) {
      ReplayMakes(d, r, actor, request, id, now, createdAt, reading);
    } else {
      ReplayAnswers(d, r, actor, request, id, now, createdAt, reading);
    }
  }
}
