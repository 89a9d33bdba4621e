/** What every committed state of the active-message domain satisfies, and that each service call
    keeps it: the database's CHECK and UNIQUE constraints never fire, a frozen composition of the
    current generation is exactly the current active set, airings the domain still owns are current
    and within the limits in force, and due times move only with air evidence. */
module DomainInvariants {
  import opened Common
  import opened Ordering
  import opened Composition
  import opened Services

  // -- row constraints (active_messages/models.py) ------------------------------------------------------------

  predicate PolicyOk(p: Policy) {
    && REPLAY_INTERVAL_MIN <= p.interval <= REPLAY_INTERVAL_MAX
    && 1 <= p.limits.maxActive <= ABSOLUTE_MAX_ACTIVE_MESSAGES
    && 1 <= p.limits.maxMessageSeconds <= ABSOLUTE_MAX_MESSAGE_SECONDS
    && 1 <= p.limits.maxAggregateSeconds <= ABSOLUTE_MAX_AGGREGATE_SECONDS
    && p.limits.maxMessageSeconds <= p.limits.maxAggregateSeconds
  }

  predicate MessageRowOk(m: Message) {
    && (m.state.Prepared? ==> m.activationGeneration.None? && m.activatedAt.None? && m.nextDueAt.None? &&
                              m.lastCompletedAt.None? && m.interval.None? && m.terminalAt.None?)
    && (m.state.Active? ==> m.media.Some? && m.activationGeneration.Some? && m.activatedAt.Some? &&
                            m.interval.Some? && m.nextDueAt.Some? && m.terminalAt.None?)
    && (m.state.Cleared? || m.state.Expired? ==> m.terminalAt.Some?)
    && (m.state.Expired? ==> m.activatedAt.Some? && m.expiresAt.Some?)
    && (m.supersededBy.Some? ==> m.state.Cleared?)
    && (m.interval.Some? ==> REPLAY_INTERVAL_MIN <= m.interval.value <= REPLAY_INTERVAL_MAX)
    && (m.activationGeneration.Some? ==> m.activationGeneration.value >= 1)
  }

  predicate HasMix(state: ExecutionState) {
    state.Ready? || WasAccepted(state)
  }

  predicate WasAccepted(state: ExecutionState) {
    state.Accepted? || WasClaimed(state)
  }

  predicate WasClaimed(state: ExecutionState) {
    state.Claimed? || WasStarted(state)
  }

  predicate WasStarted(state: ExecutionState) {
    state.Started? || state.Completed? || state.Interrupted?
  }

  predicate ExecutionRowOk(e: Execution) {
    && (e.open <==> Unfinished(e.state)) && (e.open <==> e.terminalAt.None?)
    && 1 <= e.componentCount <= ABSOLUTE_MAX_ACTIVE_MESSAGES
    && e.generation >= 1
    && (HasMix(e.state) ==> e.mix.Some? && e.readyAt.Some?) && (e.mix.Some? ==> !e.state.PendingRender?)
    && (WasAccepted(e.state) ==> e.acceptedAt.Some?)
    && (WasClaimed(e.state) ==> e.claimedAt.Some?)
    && (WasStarted(e.state) ==> e.startedAt.Some?)
    && (e.startedAt.Some? ==> WasStarted(e.state))
    && (e.startedAt.None? ==> e.endedAt.None? && e.confirmedMs.None?)
    && (e.state.Completed? ==> e.endedAt.Some? && e.confirmedMs.Some?)
    && (e.endedAt.Some? && e.startedAt.Some? ==> e.endedAt.value >= e.startedAt.value)
    && (e.confirmedMs.Some? ==> e.confirmedMs.value >= 0)
    && (e.state.Failed? || e.state.Suppressed? ==> e.failure.Some?)
    && e.attempts <= 1000
  }

  predicate BothActive(messages: map<MessageId, Message>, a: MessageId, b: MessageId) {
    a in messages && b in messages && messages[a].state.Active? && messages[b].state.Active?
  }

  predicate BothUnfinished(executions: map<ExecutionId, Execution>, a: ExecutionId, b: ExecutionId) {
    a in executions && b in executions && Unfinished(executions[a].state) && Unfinished(executions[b].state)
  }

  ghost predicate MessagesOk(d: Domain) {
    && (forall id :: id in d.messages ==>
          MessageRowOk(d.messages[id]) &&
          (d.messages[id].activationGeneration.Some? ==>
             d.messages[id].activationGeneration.value <= d.policy.generation))
    && (forall a, b :: BothActive(d.messages, a, b) && SameSlot(d.messages[a], d.messages[b]) ==> a == b)
  }

  ghost predicate ExecutionsOk(d: Domain) {
    && (forall id :: id in d.executions ==>
          ExecutionRowOk(d.executions[id]) && d.executions[id].generation <= d.policy.generation)
    && (forall a, b :: BothUnfinished(d.executions, a, b) ==> a == b)
  }

  // -- generation and content ------------------------------------------------------------------------------------

  predicate FrozenOk(e: Execution) {
    && e.digest == DigestOf(e.snapshot)
    && |e.snapshot.components| == e.componentCount
    && (e.snapshot.stinger.Some? ==> HasUrgent(e.snapshot.components))
    && (e.mix.Some? ==> Proves(e.mix.value, e.snapshot) && e.mix.value.ms.Some? && e.mix.value.ms.value > 0)
  }

  /** An execution of the current generation froze exactly the messages active now, in canonical order. */
  ghost predicate CurrentContent(d: Domain, e: Execution) {
    e.generation == d.policy.generation ==> e.snapshot.components == Ordered(ActiveComponents(d.messages))
  }

  ghost predicate ContentOk(d: Domain) {
    forall id :: id in d.executions ==> FrozenOk(d.executions[id]) && CurrentContent(d, d.executions[id])
  }

  predicate WithinLimits(limits: Limits, e: Execution) {
    && e.componentCount <= limits.maxActive
    && (forall c :: c in e.snapshot.components ==> MessageFits(c, limits))
    && e.snapshot.accountedMs <= limits.maxAggregateSeconds * 1000
    && (e.state.Ready? ==> e.mix.Some? && e.mix.value.ms.GetOr(0) <= limits.maxAggregateSeconds * 1000)
  }

  ghost predicate OwnedIfCurrent(d: Domain) {
    forall id :: id in d.executions && Prestart(d.executions[id].state) &&
                 d.executions[id].generation == d.policy.generation ==>
      WithinLimits(d.policy.limits, d.executions[id])
  }

  /** Everything the domain still owns is of the current generation and fits the limits in force now. */
  ghost predicate OwnedOk(d: Domain) {
    forall id :: id in d.executions && Prestart(d.executions[id].state) ==>
      d.executions[id].generation == d.policy.generation && WithinLimits(d.policy.limits, d.executions[id])
  }

  // -- cadence and history -----------------------------------------------------------------------------------------

  ghost predicate Names(e: Execution, id: MessageId) {
    exists c :: c in e.snapshot.components && c.message == id
  }

  /** A due time is the activation time, or the end evidence of the last airing applied to the message
      plus its frozen interval. */
  ghost predicate Anchored(d: Domain, id: MessageId)
    requires id in d.messages
  {
    var m := d.messages[id];
    if id in d.airedIn then
      && d.airedIn[id] in d.executions
      && var e := d.executions[d.airedIn[id]];
      && (e.state.Completed? || e.state.Interrupted?) && Names(e, id)
      && e.endedAt.Some? && m.interval.Some?
      && m.nextDueAt == Some(e.endedAt.value + m.interval.value * SECOND)
    else m.nextDueAt == m.activatedAt
  }

  ghost predicate CadenceOk(d: Domain) {
    && (forall id :: id in d.airedIn ==> id in d.messages && !d.messages[id].state.Prepared?)
    && (forall id :: id in d.messages && d.messages[id].state.Active? ==> Anchored(d, id))
  }

  predicate StingerFailed(e: Execution) {
    e.state.Failed? && e.failure == Some(StingerPinUnavailable)
  }

  ghost predicate HistoryOk(d: Domain) {
    && (forall t :: t in d.requests ==> d.requests[t].execution in d.executions)
    && (forall p :: p in d.reconciled ==>
          p in d.executions && StingerFailed(d.executions[p]) &&
          (d.reconciled[p].Some? ==> d.reconciled[p].value in d.executions))
    && (forall x :: x in d.reconciles ==>
          x in d.executions && d.executions[x].reason.Reconcile? && d.reconciles[x] in d.reconciled &&
          d.reconciled[d.reconciles[x]] == Some(x) &&
          d.executions[x].generation == d.executions[d.reconciles[x]].generation)
    && (forall x :: x in d.executions && d.executions[x].reason.Reconcile? ==> x in d.reconciles)
  }

  ghost predicate Core(d: Domain) {
    PolicyOk(d.policy) && MessagesOk(d) && ExecutionsOk(d) && ContentOk(d) && CadenceOk(d) && HistoryOk(d)
  }

  ghost predicate DomainOk(d: Domain) {
    Core(d) && OwnedOk(d)
  }

  // -- building blocks ----------------------------------------------------------------------------------------------

  /** What a transition of one execution row keeps of the row it replaces. */
  predicate RowStep(limits: Limits, o: Execution, e: Execution) {
    && ExecutionRowOk(e) && FrozenOk(e)
    && e.generation == o.generation && e.snapshot == o.snapshot && e.reason == o.reason
    && (Unfinished(e.state) ==> Unfinished(o.state))
    && (Prestart(e.state) ==> Prestart(o.state) && WithinLimits(limits, e))
    && (StingerFailed(o) ==> StingerFailed(e))
    && (o.state.Completed? || o.state.Interrupted? ==> e == o)
  }

  /** Only execution rows changed, each by a `RowStep` (a prestart row only while it is current). */
  ghost predicate TableStep(d: Domain, n: Domain) {
    && n == d.(executions := n.executions)
    && n.executions.Keys == d.executions.Keys
    && forall id :: id in d.executions ==>
         n.executions[id] == d.executions[id] || RowStep(d.policy.limits, d.executions[id], n.executions[id])
  }

  lemma TableStepExecutions(d: Domain, n: Domain)
    requires ExecutionsOk(d) && TableStep(d, n)
    ensures ExecutionsOk(n)
  {
    hide FrozenOk, WithinLimits;
    forall id | id in n.executions
      ensures ExecutionRowOk(n.executions[id]) && n.executions[id].generation <= n.policy.generation
      ensures Unfinished(n.executions[id].state) ==> Unfinished(d.executions[id].state)
    {
      assert id in d.executions;
    }
    forall a, b | BothUnfinished(n.executions, a, b) ensures a == b {
      assert BothUnfinished(d.executions, a, b);
    }
  }

  lemma TableStepContent(d: Domain, n: Domain)
    requires ContentOk(d) && TableStep(d, n)
    ensures ContentOk(n)
  {
    hide FrozenOk, WithinLimits, ExecutionRowOk, Ordered, ActiveComponents;
    forall id | id in n.executions ensures FrozenOk(n.executions[id]) && CurrentContent(n, n.executions[id]) {
      assert id in d.executions && CurrentContent(d, d.executions[id]);
    }
  }

  lemma TableStepOwned(d: Domain, n: Domain)
    requires OwnedOk(d) && TableStep(d, n)
    ensures OwnedOk(n)
  {
    hide FrozenOk, WithinLimits, ExecutionRowOk;
  }

  lemma TableStepCadence(d: Domain, n: Domain)
    requires CadenceOk(d) && TableStep(d, n)
    ensures CadenceOk(n)
  {
    hide FrozenOk, WithinLimits, ExecutionRowOk, Names;
    forall x | x in n.messages && n.messages[x].state.Active? ensures Anchored(n, x) {
      assert Anchored(d, x);
    }
  }

  lemma TableStepHistory(d: Domain, n: Domain)
    requires HistoryOk(d) && TableStep(d, n)
    ensures HistoryOk(n)
  {
    hide FrozenOk, WithinLimits, ExecutionRowOk;
  }

  lemma TableStepCore(d: Domain, n: Domain)
    requires Core(d) && TableStep(d, n)
    ensures Core(n)
  {
    TableStepExecutions(d, n);
    TableStepContent(d, n);
    TableStepCadence(d, n);
    TableStepHistory(d, n);
    hide MessagesOk, ExecutionsOk, ContentOk, CadenceOk, HistoryOk, RowStep;
    assert MessagesOk(n) by { TableStepMessages(d, n); }
  }

  lemma TableStepMessages(d: Domain, n: Domain)
    requires MessagesOk(d) && n.messages == d.messages && n.policy == d.policy
    ensures MessagesOk(n)
  {
    hide MessageRowOk;
  }

  lemma TableStepKeeps(d: Domain, n: Domain)
    requires DomainOk(d) && TableStep(d, n)
    ensures DomainOk(n)
  {
    hide MessagesOk, ExecutionsOk, ContentOk, CadenceOk, HistoryOk, RowStep;
    TableStepCore(d, n);
    TableStepOwned(d, n);
  }

  /** Suppression leaves nothing stale and keeps the rest. */
  lemma SuppressStaleSettles(d: Domain, now: Time)
    requires Core(d) && OwnedIfCurrent(d)
    ensures DomainOk(SuppressStale(d, now))
  {
    hide MessagesOk, ExecutionsOk, ContentOk, CadenceOk, HistoryOk, TableStep, OwnedOk, OwnedIfCurrent, SuppressStale;
    SuppressStaleIsTableStep(d, now);
    TableStepCore(d, SuppressStale(d, now));
    SuppressStaleOwned(d, now);
  }

  lemma SuppressStaleOwned(d: Domain, now: Time)
    requires OwnedIfCurrent(d)
    ensures OwnedOk(SuppressStale(d, now))
  {
    hide WithinLimits;
  }

  lemma SuppressStaleIsTableStep(d: Domain, now: Time)
    requires ExecutionsOk(d) && ContentOk(d)
    ensures TableStep(d, SuppressStale(d, now))
  {
    hide Ordered, ActiveComponents, Proves, DigestOf, HasUrgent, WithinLimits;
    var s := SuppressStale(d, now);
    assert s.executions.Keys == d.executions.Keys;
  }

  /** A new generation forgets which compositions were current: the messages and the policy may then
      change freely, and what is suppressed next is everything built before. */
  lemma NewGenerationSettles(d: Domain, next: Domain, now: Time)
    requires Core(d)
    requires next == d.(policy := next.policy, messages := next.messages)
    requires next.policy.generation == d.policy.generation + 1
    requires PolicyOk(next.policy) && MessagesOk(next) && CadenceOk(next)
    ensures DomainOk(SuppressStale(next, now))
  {
    hide MessagesOk, CadenceOk, FrozenOk, ExecutionRowOk, WithinLimits, Ordered, ActiveComponents;
    assert ExecutionsOk(next) && ContentOk(next) && OwnedIfCurrent(next);
    assert HistoryOk(next);
    hide HistoryOk, ExecutionsOk, ContentOk, OwnedIfCurrent;
    SuppressStaleSettles(next, now);
  }

  /** Messages changed, but neither the active set nor any execution. */
  lemma SameCompositionKeeps(d: Domain, n: Domain)
    requires DomainOk(d)
    requires n == d.(messages := n.messages) && MessagesOk(n) && CadenceOk(n)
    requires ActiveComponents(n.messages) == ActiveComponents(d.messages)
    ensures DomainOk(n)
  {
    hide MessagesOk, CadenceOk, FrozenOk, ExecutionRowOk, WithinLimits, Ordered, ActiveComponents;
  }

  /** Writing a row that is not, and does not become, ACTIVE changes no composition. */
  lemma InactiveWriteKeeps(d: Domain, id: MessageId, m: Message)
    requires DomainOk(d) && MessageRowOk(m) && !m.state.Active?
    requires m.activationGeneration.None?
    requires id in d.messages ==> !d.messages[id].state.Active?
    requires m.state.Prepared? ==> id !in d.airedIn
    ensures DomainOk(d.(messages := d.messages[id := m]))
  {
    var n := d.(messages := d.messages[id := m]);
    InactiveWriteMessages(d, id, m);
    hide DomainOk, ExecutionsOk, ContentOk, HistoryOk, OwnedOk, MessagesOk, Core;
    SameCompositionKeeps(d, n);
  }

  lemma InactiveWriteMessages(d: Domain, id: MessageId, m: Message)
    requires MessagesOk(d) && CadenceOk(d) && MessageRowOk(m) && !m.state.Active?
    requires m.activationGeneration.None?
    requires id in d.messages ==> !d.messages[id].state.Active?
    requires m.state.Prepared? ==> id !in d.airedIn
    ensures var n := d.(messages := d.messages[id := m]);
            MessagesOk(n) && CadenceOk(n) && ActiveComponents(n.messages) == ActiveComponents(d.messages)
  {
    hide Names, MessageRowOk;
    var n := d.(messages := d.messages[id := m]);
    assert ActiveComponents(n.messages) == ActiveComponents(d.messages) by {
      hide MessagesOk, CadenceOk;
      SameActiveRows(d.messages, n.messages);
    }
    forall x | x in n.messages && n.messages[x].state.Active? ensures Anchored(n, x) {
      assert Anchored(d, x);
    }
  }

  /** The composition reads only ACTIVE rows, and of them only what a component carries. */
  lemma SameActiveRows(a: map<MessageId, Message>, b: map<MessageId, Message>)
    requires forall x :: (x in a && a[x].state.Active?) <==> (x in b && b[x].state.Active?)
    requires forall x :: x in a && a[x].state.Active? && x in b ==> ComponentOf(x, a[x]) == ComponentOf(x, b[x])
    ensures ActiveComponents(a) == ActiveComponents(b)
  {
    forall c | c in ActiveComponents(a) ensures c in ActiveComponents(b) {
      var x :| x in a && a[x].state.Active? && c == ComponentOf(x, a[x]);
      assert x in b && ComponentOf(x, b[x]) == c;
    }
    forall c | c in ActiveComponents(b) ensures c in ActiveComponents(a) {
      var x :| x in b && b[x].state.Active? && c == ComponentOf(x, b[x]);
      assert x in a && ComponentOf(x, a[x]) == c;
    }
  }

  // -- message lifecycle --------------------------------------------------------------------------------------------

  /** Every ACTIVE row of `next` is an ACTIVE row of `d` with the same due time, interval and history,
      or a newly activated one that never aired. */
  lemma CadenceOfRows(d: Domain, next: Domain)
    requires CadenceOk(d) && next.executions == d.executions && next.airedIn == d.airedIn
    requires forall x :: x in d.messages ==> x in next.messages
    requires forall x :: x in d.messages && !d.messages[x].state.Prepared? ==> !next.messages[x].state.Prepared?
    requires forall x :: x in next.messages && next.messages[x].state.Active? ==>
      if x in d.messages && d.messages[x].state.Active?
      then next.messages[x].nextDueAt == d.messages[x].nextDueAt && next.messages[x].interval == d.messages[x].interval
           && next.messages[x].activatedAt == d.messages[x].activatedAt
      else x !in d.airedIn && next.messages[x].nextDueAt == next.messages[x].activatedAt
    ensures CadenceOk(next)
  {
    hide Names;
    forall x | x in next.messages && next.messages[x].state.Active? ensures Anchored(next, x) {
      if x in d.messages && d.messages[x].state.Active? {
        assert Anchored(d, x);
      }
    }
  }

  lemma ExpireKeeps(d: Domain, now: Time)
    requires DomainOk(d)
    ensures DomainOk(ExpireLocked(d, now))
    ensures DueToExpire(ExpireLocked(d, now), now) == {}
  {
    hide ExecutionsOk, ContentOk, HistoryOk, OwnedOk, CadenceOk, MessagesOk, SuppressStale, Swept;
    SweptRows(d, now);
    if DueToExpire(d, now) != {} {
      NewGenerationSettles(d, Swept(d, now), now);
      SweptLeavesNoneDue(d, now);
    }
  }

  lemma SweptLeavesNoneDue(d: Domain, now: Time)
    ensures DueToExpire(SuppressStale(Swept(d, now), now), now) == {}
  {
  }

  lemma SweptRows(d: Domain, now: Time)
    requires MessagesOk(d) && CadenceOk(d)
    ensures MessagesOk(Swept(d, now)) && CadenceOk(Swept(d, now))
    ensures Swept(d, now) == d.(policy := Swept(d, now).policy, messages := Swept(d, now).messages)
    ensures Swept(d, now).policy == Bump(d).policy
  {
    CadenceOfRows(d, Swept(d, now));
  }

  lemma RefreshKeeps(d: Domain, now: Time)
    requires DomainOk(d)
    ensures DomainOk(Refresh(d, now))
    ensures Refresh(d, now) == ExpireLocked(d, now)
    ensures DueToExpire(Refresh(d, now), now) == {}
  {
    ExpireKeeps(d, now);
    hide MessagesOk, ExecutionsOk, ContentOk, HistoryOk, CadenceOk, ExpireLocked, WithinLimits;
    var e := ExpireLocked(d, now);
    assert SuppressStale(e, now).executions == e.executions;
  }

  lemma PrepareKeeps(d: Domain, id: MessageId, actor: Actor, contentType: nat, type_: TypeFacts,
                     expiresAt: Option<Time>, now: Time)
    requires DomainOk(d)
    ensures DomainOk(Prepare(d, id, actor, contentType, type_, expiresAt, now).domain)
  {
    hide MessagesOk, ExecutionsOk, ContentOk, HistoryOk, OwnedOk, CadenceOk;
    var o := Prepare(d, id, actor, contentType, type_, expiresAt, now);
    if o.domain != d {
      AiredAreRows(d);
      InactiveWriteKeeps(d, id, o.domain.messages[id]);
    }
  }

  lemma AiredAreRows(d: Domain)
    requires CadenceOk(d)
    ensures forall id :: id in d.airedIn ==> id in d.messages && !d.messages[id].state.Prepared?
  {
  }

  lemma BindMediaKeeps(d: Domain, id: MessageId, actor: Actor, type_: TypeFacts, media: Media, ownMedia: bool,
                       binding: Binding)
    requires DomainOk(d)
    ensures DomainOk(BindMedia(d, id, actor, type_, media, ownMedia, binding).domain)
  {
    hide ExecutionsOk, ContentOk, HistoryOk, OwnedOk, CadenceOk, MessagesOk;
    var o := BindMedia(d, id, actor, type_, media, ownMedia, binding);
    if o.domain != d {
      AiredAreRows(d);
      assert MessageRowOk(d.messages[id]) by { MessageFacts(d, id); }
      InactiveWriteKeeps(d, id, o.domain.messages[id]);
    }
  }

  lemma MessageFacts(d: Domain, id: MessageId)
    requires MessagesOk(d) && id in d.messages
    ensures MessageRowOk(d.messages[id])
  {
    hide MessageRowOk;
  }

  lemma SetExpiryKeeps(d: Domain, id: MessageId, actor: Actor, type_: TypeFacts, expiresAt: Option<Time>,
                       expected: Option<Option<Time>>, now: Time)
    requires DomainOk(d)
    ensures DomainOk(SetExpiry(d, id, actor, type_, expiresAt, expected, now).domain)
  {
    var n := SetExpiry(d, id, actor, type_, expiresAt, expected, now).domain;
    hide ExecutionsOk, ContentOk, HistoryOk, OwnedOk, CadenceOk, MessagesOk, SetExpiry;
    SetExpiryWrites(d, id, actor, type_, expiresAt, expected, now);
    if n != d {
      ExpiryWrite(d, id, expiresAt);
      SameCompositionKeeps(d, n);
    }
  }

  lemma SetExpiryWrites(d: Domain, id: MessageId, actor: Actor, type_: TypeFacts, expiresAt: Option<Time>,
                        expected: Option<Option<Time>>, now: Time)
    ensures var n := SetExpiry(d, id, actor, type_, expiresAt, expected, now).domain;
            n == d || (id in d.messages && (d.messages[id].state.Prepared? || d.messages[id].state.Active?) &&
                       n == d.(messages := d.messages[id := d.messages[id].(expiresAt := expiresAt)]))
  {
  }

  lemma ExpiryWrite(d: Domain, id: MessageId, expiresAt: Option<Time>)
    requires MessagesOk(d) && CadenceOk(d) && id in d.messages
    requires d.messages[id].state.Prepared? || d.messages[id].state.Active?
    ensures var n := d.(messages := d.messages[id := d.messages[id].(expiresAt := expiresAt)]);
            MessagesOk(n) && CadenceOk(n) && ActiveComponents(n.messages) == ActiveComponents(d.messages)
  {
    var n := d.(messages := d.messages[id := d.messages[id].(expiresAt := expiresAt)]);
    assert ActiveComponents(n.messages) == ActiveComponents(d.messages) by {
      hide MessagesOk, CadenceOk, MessageRowOk;
      SameActiveRows(d.messages, n.messages);
    }
    assert CadenceOk(n) by {
      hide MessagesOk, MessageRowOk;
      CadenceOfRows(d, n);
    }
    hide CadenceOk, ActiveComponents;
    RowsKeepSlots(d, n);
  }

  /** Rows that meet their own constraints, none of them in a newly taken slot. */
  lemma RowsKeepSlots(d: Domain, n: Domain)
    requires MessagesOk(d) && n.policy.generation >= d.policy.generation
    requires forall x :: x in n.messages ==> x in d.messages && MessageRowOk(n.messages[x])
    requires forall x :: x in n.messages ==> n.messages[x].activationGeneration == d.messages[x].activationGeneration
    requires forall x :: x in n.messages && n.messages[x].state.Active? ==>
               d.messages[x].state.Active? && SameSlot(n.messages[x], d.messages[x])
    ensures MessagesOk(n)
  {
    hide MessageRowOk;
    forall a, b | BothActive(n.messages, a, b) && SameSlot(n.messages[a], n.messages[b]) ensures a == b {
      assert BothActive(d.messages, a, b);
    }
  }


  lemma ActivateKeeps(d: Domain, id: MessageId, actor: Actor, type_: TypeFacts, binding: Binding,
                      reading: StingerReading, now: Time)
    requires DomainOk(d)
    ensures DomainOk(Activate(d, id, actor, type_, binding, reading, now).domain)
  {
    hide Candidates, Eligibility, StingerFor, ExecutionsOk, ContentOk, HistoryOk, OwnedOk, CadenceOk, MessagesOk,
         SuppressStale, Activated;
    var o := Activate(d, id, actor, type_, binding, reading, now);
    if o.domain != d {
      var previous := Superseded(d, id);
      var interval := if type_.interval.Some? then type_.interval.value else d.policy.interval;
      assert o.domain == SuppressStale(Activated(d, id, previous, interval, now), now);
      ActivatedRows(d, id, previous, interval, now);
      NewGenerationSettles(d, Activated(d, id, previous, interval, now), now);
    }
  }

  lemma ActivatedRows(d: Domain, id: MessageId, previous: Option<MessageId>, interval: nat, now: Time)
    requires MessagesOk(d) && CadenceOk(d) && id in d.messages && d.messages[id].state.Prepared?
    requires previous == Superseded(d, id) && d.messages[id].media.Some?
    requires REPLAY_INTERVAL_MIN <= interval <= REPLAY_INTERVAL_MAX
    ensures var n := Activated(d, id, previous, interval, now);
            && MessagesOk(n) && CadenceOk(n)
            && n == d.(policy := n.policy, messages := n.messages) && n.policy == Bump(d).policy
  {
    var n := Activated(d, id, previous, interval, now);
    assert CadenceOk(n) by {
      hide MessagesOk, MessageRowOk, Superseded;
      CadenceOfRows(d, n);
    }
    hide CadenceOk;
    ActivatedSlots(d, id, interval, now);
  }

  /** Activating clears the row that held the slot, so the slot has one ACTIVE row again. */
  lemma ActivatedSlots(d: Domain, id: MessageId, interval: nat, now: Time)
    requires MessagesOk(d) && id in d.messages && d.messages[id].state.Prepared? && d.messages[id].media.Some?
    requires REPLAY_INTERVAL_MIN <= interval <= REPLAY_INTERVAL_MAX
    ensures MessagesOk(Activated(d, id, Superseded(d, id), interval, now))
  {
    var previous := Superseded(d, id);
    var n := Activated(d, id, previous, interval, now);
    assert n.messages.Keys == d.messages.Keys;
    forall x | x in n.messages
      ensures MessageRowOk(n.messages[x])
      ensures n.messages[x].activationGeneration.Some? ==>
                n.messages[x].activationGeneration.value <= n.policy.generation
    {
      assert x in d.messages;
    }
    forall x | x in d.messages && x != id && d.messages[x].state.Active? && SameSlot(d.messages[x], d.messages[id])
      ensures Some(x) == previous
    {
      assert BothActive(d.messages, x, previous.value);
    }
    forall a, b | BothActive(n.messages, a, b) && SameSlot(n.messages[a], n.messages[b]) ensures a == b {
      if a != id && b != id {
        assert BothActive(d.messages, a, b);
      }
    }
  }

  lemma ClearKeeps(d: Domain, id: MessageId, actor: Actor, type_: TypeFacts, expected: Option<MessageState>, now: Time)
    requires DomainOk(d)
    ensures DomainOk(Clear(d, id, actor, type_, expected, now).domain)
  {
    hide ExecutionsOk, ContentOk, HistoryOk, OwnedOk, CadenceOk, MessagesOk, SuppressStale, EndMessage, Bump;
    var o := Clear(d, id, actor, type_, expected, now);
    if o.domain != d {
      var m := d.messages[id];
      ClearedRow(d, id, now);
      if m.state.Prepared? {
        InactiveWriteKeeps(d, id, EndMessage(m, Cleared, now, None));
      } else {
        NewGenerationSettles(d, Bump(d).(messages := d.messages[id := EndMessage(m, Cleared, now, None)]), now);
      }
    }
  }

  lemma ClearedRow(d: Domain, id: MessageId, now: Time)
    requires MessagesOk(d) && CadenceOk(d) && id in d.messages
    requires d.messages[id].state.Prepared? || d.messages[id].state.Active?
    ensures var row := EndMessage(d.messages[id], Cleared, now, None);
            var n := Bump(d).(messages := d.messages[id := row]);
            && MessagesOk(n) && CadenceOk(n) && n == d.(policy := n.policy, messages := n.messages)
            && n.policy == d.policy.(generation := d.policy.generation + 1)
            && MessageRowOk(row) && !row.state.Active? && !row.state.Prepared?
            && (d.messages[id].state.Prepared? ==> row.activationGeneration.None?)
  {
    CadenceOfRows(d, Bump(d).(messages := d.messages[id := EndMessage(d.messages[id], Cleared, now, None)]));
  }

  // -- creating an airing -------------------------------------------------------------------------------------------

  /** A nonempty active set implies an earlier generation change. */
  lemma GenerationIsPositive(d: Domain)
    requires MessagesOk(d) && ActiveComponents(d.messages) != {}
    ensures d.policy.generation >= 1
  {
    var c :| c in ActiveComponents(d.messages);
    var id :| id in d.messages && d.messages[id].state.Active? && ComponentOf(id, d.messages[id]) == c;
    assert d.messages[id].activationGeneration.Some?;
  }

  lemma NewRowOk(d: Domain, cs: set<Component>, s: Option<StingerReading>, e: Execution)
    requires PolicyOk(d.policy) && OnePerMessage(cs) && cs != {}
    requires Eligibility(d.policy, cs, s).None? && Aggregate(cs, s).Built?
    requires s.Some? ==> s.value.StingerUsable? && s.value.ms > 0
    requires e.snapshot == Aggregate(cs, s).snapshot && e.componentCount == |e.snapshot.components|
    requires e.digest == DigestOf(e.snapshot) && e.mix.None? && e.state.PendingRender?
    ensures FrozenOk(e) && e.snapshot.components == Ordered(cs)
    ensures 1 <= e.componentCount <= ABSOLUTE_MAX_ACTIVE_MESSAGES
    ensures WithinLimits(d.policy.limits, e)
  {
    hide MessageFits, DigestOf, Proves;
    var reading := Listing(cs);
    ReadingIsOrdered(cs, reading, StingerMs(s));
    EligibleMeansWithinLimits(d.policy.limits, reading, StingerMs(s));
    OrderedIsTheSet(cs);
    hide CheckEligible, SortedSet, SortBy, Total;
  }

  /** What creating an airing from the current active set requires: it is nonempty and fits. */
  ghost predicate Airable(d: Domain, reading: StingerReading) {
    var cs := ActiveComponents(d.messages);
    var s := StingerFor(d.policy, cs, reading);
    cs != {} && Eligibility(d.policy, cs, s).None? && Aggregate(cs, s).Built?
  }

  ghost function CurrentSnapshot(d: Domain, reading: StingerReading): Snapshot
    requires Airable(d, reading)
  {
    var cs := ActiveComponents(d.messages);
    Aggregate(cs, StingerFor(d.policy, cs, reading)).snapshot
  }

  lemma NewExecutionOk(d: Domain, reading: StingerReading, reason: Reason, dueAt: Time, createdAt: Time)
    requires PolicyOk(d.policy) && MessagesOk(d) && Airable(d, reading)
    ensures var e := NewExecution(d.policy, CurrentSnapshot(d, reading), reason, dueAt, createdAt);
            ExecutionRowOk(e) && FrozenOk(e) && WithinLimits(d.policy.limits, e) &&
            e.snapshot.components == Ordered(ActiveComponents(d.messages))
  {
    hide MessageRowOk, WithinLimits, FrozenOk, Ordered, Eligibility, Aggregate;
    var cs := ActiveComponents(d.messages);
    var e := NewExecution(d.policy, CurrentSnapshot(d, reading), reason, dueAt, createdAt);
    GenerationIsPositive(d);
    hide MessagesOk;
    ActiveComponentsOnePerMessage(d.messages);
    NewRowOk(d, cs, StingerFor(d.policy, cs, reading), e);
  }

  /** One new row that meets every constraint, under a new key, while no other is unfinished. */
  lemma NewRowKeeps(d: Domain, id: ExecutionId, e: Execution)
    requires DomainOk(d) && id !in d.executions && OpenExecution(d).None?
    requires ExecutionRowOk(e) && FrozenOk(e) && WithinLimits(d.policy.limits, e)
    requires e.generation == d.policy.generation && !e.reason.Reconcile?
    requires e.snapshot.components == Ordered(ActiveComponents(d.messages))
    ensures DomainOk(d.(executions := d.executions[id := e]))
  {
    var n := d.(executions := d.executions[id := e]);
    NewRowExecutions(d, id, e);
    NewRowCadence(d, id, e);
    assert HistoryOk(n) by { NewRowHistory(d, id, e); }
    assert MessagesOk(n) by { TableStepMessages(d, n); }
    hide MessagesOk, ExecutionsOk, ContentOk, OwnedOk, CadenceOk, HistoryOk;
  }

  lemma NewRowExecutions(d: Domain, id: ExecutionId, e: Execution)
    requires ExecutionsOk(d) && ContentOk(d) && OwnedOk(d) && id !in d.executions && OpenExecution(d).None?
    requires ExecutionRowOk(e) && FrozenOk(e) && WithinLimits(d.policy.limits, e)
    requires e.generation == d.policy.generation
    requires e.snapshot.components == Ordered(ActiveComponents(d.messages))
    ensures var n := d.(executions := d.executions[id := e]); ExecutionsOk(n) && ContentOk(n) && OwnedOk(n)
  {
    hide ExecutionRowOk, FrozenOk, WithinLimits, Ordered, ActiveComponents;
  }

  lemma NewRowCadence(d: Domain, id: ExecutionId, e: Execution)
    requires CadenceOk(d) && id !in d.executions
    ensures CadenceOk(d.(executions := d.executions[id := e]))
  {
    hide Names;
    var n := d.(executions := d.executions[id := e]);
    forall x | x in n.messages && n.messages[x].state.Active? ensures Anchored(n, x) {
      assert Anchored(d, x);
    }
  }

  lemma NewRowHistory(d: Domain, id: ExecutionId, e: Execution)
    requires HistoryOk(d) && id !in d.executions && !e.reason.Reconcile?
    ensures HistoryOk(d.(executions := d.executions[id := e]))
  {
  }

  lemma CreateKeeps(d: Domain, id: ExecutionId, reading: StingerReading, reason: Reason, dueAt: Time, createdAt: Time)
    requires DomainOk(d) && id !in d.executions && OpenExecution(d).None? && Airable(d, reading)
    requires !reason.Reconcile?
    ensures DomainOk(Create(d, id, CurrentSnapshot(d, reading), reason, dueAt, createdAt))
  {
    hide MessagesOk, ExecutionsOk, ContentOk, OwnedOk, CadenceOk, HistoryOk, Airable, CurrentSnapshot,
         ExecutionRowOk, FrozenOk, WithinLimits, Ordered, ActiveComponents;
    NewExecutionOk(d, reading, reason, dueAt, createdAt);
    NewRowKeeps(d, id, NewExecution(d.policy, CurrentSnapshot(d, reading), reason, dueAt, createdAt));
  }

  /** The RECONCILE successor: its predecessor's one record names it, and both have one generation. */
  lemma SuccessorKeeps(d: Domain, id: ExecutionId, reading: StingerReading, dueAt: Time, createdAt: Time,
                       failed: ExecutionId)
    requires DomainOk(d) && id !in d.executions && OpenExecution(d).None? && Airable(d, reading)
    requires failed in d.executions && StingerFailed(d.executions[failed]) && failed !in d.reconciled
    requires d.executions[failed].generation == d.policy.generation
    ensures DomainOk(WithSuccessor(d, id, CurrentSnapshot(d, reading), failed, dueAt, createdAt))
  {
    hide Airable, CurrentSnapshot, ExecutionRowOk, FrozenOk, WithinLimits, Ordered, ActiveComponents,
         MessagesOk, ExecutionsOk, ContentOk, OwnedOk, CadenceOk, HistoryOk, OpenExecution;
    var e := NewExecution(d.policy, CurrentSnapshot(d, reading), Reconcile, dueAt, createdAt);
    NewExecutionOk(d, reading, Reconcile, dueAt, createdAt);
    var c := d.(executions := d.executions[id := e]);
    NewRowExecutions(d, id, e);
    NewRowCadence(d, id, e);
    TableStepMessages(d, c);
    SuccessorHistory(d, id, e, failed);
    HistoryWriteKeeps(c, WithSuccessor(d, id, CurrentSnapshot(d, reading), failed, dueAt, createdAt));
  }

  lemma SuccessorHistory(d: Domain, id: ExecutionId, e: Execution, failed: ExecutionId)
    requires HistoryOk(d) && id !in d.executions && e.reason.Reconcile?
    requires failed in d.executions && StingerFailed(d.executions[failed]) && failed !in d.reconciled
    requires e.generation == d.executions[failed].generation
    ensures HistoryOk(d.(executions := d.executions[id := e], reconciles := d.reconciles[id := failed],
                         reconciled := d.reconciled[failed := Some(id)]))
  {
    hide StingerFailed;
    var n := d.(executions := d.executions[id := e], reconciles := d.reconciles[id := failed],
                reconciled := d.reconciled[failed := Some(id)]);
    forall p | p in n.reconciled
      ensures p in n.executions && StingerFailed(n.executions[p])
      ensures n.reconciled[p].Some? ==> n.reconciled[p].value in n.executions
    {
      if p != failed {
        assert p in d.reconciled;
      }
    }
    forall x | x in n.reconciles
      ensures x in n.executions && n.executions[x].reason.Reconcile? && n.reconciles[x] in n.reconciled
      ensures n.reconciled[n.reconciles[x]] == Some(x)
      ensures n.reconciles[x] in n.executions && n.executions[x].generation == n.executions[n.reconciles[x]].generation
    {
      if x != id {
        assert x in d.reconciles && d.reconciles[x] in d.reconciled && d.reconciles[x] != failed;
      }
    }
    forall x | x in n.executions && n.executions[x].reason.Reconcile? ensures x in n.reconciles {
      if x != id {
        assert x in d.executions;
      }
    }
    assert forall t :: t in n.requests ==> n.requests[t].execution in d.executions;
  }

  /** The event history decides nothing about rows, content, limits or cadence. */
  lemma HistoryWriteKeeps(d: Domain, n: Domain)
    requires PolicyOk(d.policy) && MessagesOk(d) && ExecutionsOk(d) && ContentOk(d) && CadenceOk(d) && OwnedOk(d)
    requires n == d.(requests := n.requests, reconciled := n.reconciled, reconciles := n.reconciles)
    requires HistoryOk(n)
    ensures DomainOk(n)
  {
    hide ExecutionRowOk, FrozenOk, WithinLimits, Ordered, ActiveComponents, Names, MessageRowOk, HistoryOk;
    forall x | x in n.messages && n.messages[x].state.Active? ensures Anchored(n, x) {
      assert Anchored(d, x);
    }
  }

  lemma MaterializeKeeps(d: Domain, id: ExecutionId, now: Time, createdAt: Time, reading: StingerReading,
                         blocking: set<FailureCode>)
    requires DomainOk(d)
    ensures DomainOk(Materialize(d, id, now, createdAt, reading, blocking).domain)
  {
    hide DomainOk, Refresh, Eligibility, Aggregate, StingerFor, BlockingFailure;
    RefreshKeeps(d, now);
    var r := Refresh(d, now);
    var o := Materialize(d, id, now, createdAt, reading, blocking);
    if o.domain != d && o.domain != r {
      var due := DueTimes(r.messages, now);
      var x :| x in r.messages && r.messages[x].state.Active?;
      assert ComponentOf(x, r.messages[x]) in ActiveComponents(r.messages);
      CreateKeeps(r, id, reading, Scheduled, Earliest(due), createdAt);
    }
  }

  lemma ReconcileKeeps(d: Domain, failed: ExecutionId, id: ExecutionId, now: Time, createdAt: Time,
                       reading: StingerReading)
    requires DomainOk(d)
    ensures DomainOk(ReconcileFailure(d, failed, id, now, createdAt, reading).domain)
  {
    hide DomainOk, Refresh, Airable, CurrentSnapshot, OpenExecution, ReconcileFailure, Record, WithSuccessor;
    var r := Refresh(d, now);
    var o := ReconcileFailure(d, failed, id, now, createdAt, reading);
    RefreshKeeps(d, now);
    RefreshKeepsHistory(d, now);
    ReconcileWrites(d, failed, id, now, createdAt, reading);
    if o.domain != d && o.domain != r {
      if Airable(r, reading) && id !in r.executions && OpenExecution(r).None? &&
         d.executions[failed].generation == r.policy.generation &&
         o.domain == WithSuccessor(r, id, CurrentSnapshot(r, reading), failed, now, createdAt) {
        SuccessorKeeps(r, id, reading, now, createdAt, failed);
      } else {
        RecordKeeps(r, failed, OpenExecution(r));
        RecordKeeps(r, failed, None);
      }
    }
  }

  /** What the call writes: nothing, the sweep, one record naming the open airing or none, or one successor. */
  lemma ReconcileWrites(d: Domain, failed: ExecutionId, id: ExecutionId, now: Time, createdAt: Time,
                        reading: StingerReading)
    ensures var o := ReconcileFailure(d, failed, id, now, createdAt, reading);
            var r := Refresh(d, now);
            || o.domain == d || o.domain == r
            || (failed in d.executions && StingerFailed(d.executions[failed]) && failed !in d.reconciled &&
                (|| o.domain == Record(r, failed, None)
                 || o.domain == Record(r, failed, OpenExecution(r))
                 || (&& Airable(r, reading) && id !in r.executions && OpenExecution(r).None?
                     && d.executions[failed].generation == r.policy.generation
                     && o.domain == WithSuccessor(r, id, CurrentSnapshot(r, reading), failed, now, createdAt))))
  {
    hide Refresh, OpenExecution, Eligibility, Aggregate, StingerFor, NewExecution;
  }

  lemma RefreshKeepsHistory(d: Domain, now: Time)
    ensures var r := Refresh(d, now);
            && r.reconciled == d.reconciled && r.reconciles == d.reconciles && r.requests == d.requests
            && r.airedIn == d.airedIn && r.executions.Keys == d.executions.Keys
            && forall x :: x in d.executions && !Prestart(d.executions[x].state) ==> r.executions[x] == d.executions[x]
  {
  }

  lemma RecordKeeps(d: Domain, failed: ExecutionId, successor: Option<ExecutionId>)
    requires DomainOk(d) && failed in d.executions && StingerFailed(d.executions[failed]) && failed !in d.reconciled
    requires successor.Some? ==> successor.value in d.executions
    ensures DomainOk(Record(d, failed, successor))
  {
    hide MessagesOk, ExecutionsOk, ContentOk, OwnedOk, CadenceOk;
    HistoryWriteKeeps(d, Record(d, failed, successor));
  }

  lemma ReplayKeeps(d: Domain, actor: Actor, token: Token, id: ExecutionId, now: Time, createdAt: Time,
                    reading: StingerReading)
    requires DomainOk(d)
    ensures DomainOk(Replay(d, actor, token, id, now, createdAt, reading).domain)
  {
    hide DomainOk, Refresh, Airable, CurrentSnapshot, OpenExecution, Replay, Create;
    var r := Refresh(d, now);
    var o := Replay(d, actor, token, id, now, createdAt, reading);
    RefreshKeeps(d, now);
    ReplayWrites(d, actor, token, id, now, createdAt, reading);
    if o.domain != d && o.domain != r {
      if OpenExecution(r).Some? {
        RequestKeeps(r, token, Request(actor.id, OpenExecution(r).value, false));
      } else {
        CreateKeeps(r, id, reading, Manual, now, createdAt);
        CreateAdds(r, id, CurrentSnapshot(r, reading), Manual, now, createdAt);
        RequestKeeps(Create(r, id, CurrentSnapshot(r, reading), Manual, now, createdAt), token,
                     Request(actor.id, id, true));
      }
    }
  }

  lemma CreateAdds(d: Domain, id: ExecutionId, snapshot: Snapshot, reason: Reason, dueAt: Time, createdAt: Time)
    ensures id in Create(d, id, snapshot, reason, dueAt, createdAt).executions
  {
  }

  /** What the call writes: nothing, the sweep, a request coalesced with the open airing, or a new airing. */
  lemma ReplayWrites(d: Domain, actor: Actor, token: Token, id: ExecutionId, now: Time, createdAt: Time,
                     reading: StingerReading)
    ensures var o := Replay(d, actor, token, id, now, createdAt, reading);
            var r := Refresh(d, now);
            var open := OpenExecution(r);
            || o.domain == d || o.domain == r
            || (&& token !in d.requests
                && if open.Some?
                   then o.domain == r.(requests := r.requests[token := Request(actor.id, open.value, false)])
                   else Airable(r, reading) && id !in r.executions &&
                        var c := Create(r, id, CurrentSnapshot(r, reading), Manual, now, createdAt);
                        o.domain == c.(requests := c.requests[token := Request(actor.id, id, true)]))
  {
    hide Refresh, OpenExecution, Eligibility, Aggregate, StingerFor, NewExecution;
  }

  lemma RequestKeeps(d: Domain, token: Token, request: Request)
    requires DomainOk(d) && request.execution in d.executions
    ensures DomainOk(d.(requests := d.requests[token := request]))
  {
    hide MessagesOk, ExecutionsOk, ContentOk, OwnedOk, CadenceOk;
    HistoryWriteKeeps(d, d.(requests := d.requests[token := request]));
  }

  // -- moving one airing on -----------------------------------------------------------------------------------------

  lemma RowStepKeeps(d: Domain, id: ExecutionId, e: Execution)
    requires DomainOk(d) && id in d.executions && RowStep(d.policy.limits, d.executions[id], e)
    ensures DomainOk(d.(executions := d.executions[id := e]))
  {
    hide DomainOk, RowStep;
    TableStepKeeps(d, d.(executions := d.executions[id := e]));
  }

  /** What the invariant says of one row. */
  lemma RowFacts(d: Domain, id: ExecutionId)
    requires DomainOk(d) && id in d.executions
    ensures ExecutionRowOk(d.executions[id]) && FrozenOk(d.executions[id])
    ensures Prestart(d.executions[id].state) ==>
              d.executions[id].generation == d.policy.generation && WithinLimits(d.policy.limits, d.executions[id])
  {
    hide ExecutionRowOk, FrozenOk, WithinLimits, MessagesOk, CadenceOk, HistoryOk, CurrentContent;
  }

  /** The domain never binds a mix to, nor fails, a stale airing: nothing it owns is stale. */
  lemma BindMixKeeps(d: Domain, id: ExecutionId, media: Media, binding: Binding, now: Time)
    requires DomainOk(d)
    ensures DomainOk(BindMix(d, id, media, binding, now).domain)
  {
    hide DomainOk, Proves, DigestOf, HasUrgent, MessageFits;
    var o := BindMix(d, id, media, binding, now);
    if o.domain != d {
      RowFacts(d, id);
      RowStepKeeps(d, id, o.domain.executions[id]);
    }
  }

  lemma FailKeeps(d: Domain, id: ExecutionId, code: FailureCode, now: Time)
    requires DomainOk(d)
    ensures DomainOk(FailExecution(d, id, code, now).domain)
  {
    hide DomainOk, FrozenOk, WithinLimits;
    var o := FailExecution(d, id, code, now);
    if o.domain != d {
      RowFacts(d, id);
      FrozenCarries(d.executions[id], o.domain.executions[id]);
      RowStepKeeps(d, id, o.domain.executions[id]);
    }
  }

  lemma FrozenCarries(o: Execution, e: Execution)
    requires FrozenOk(o) && e.snapshot == o.snapshot && e.digest == o.digest && e.mix == o.mix
    requires e.componentCount == o.componentCount
    ensures FrozenOk(e)
  {
  }

  lemma AirStartedKeeps(d: Domain, id: ExecutionId, token: Token, startedAt: Time, claimedAt: Option<Time>)
    requires DomainOk(d)
    ensures DomainOk(AirStarted(d, id, token, startedAt, claimedAt).domain)
  {
    hide DomainOk, FrozenOk, WithinLimits;
    var o := AirStarted(d, id, token, startedAt, claimedAt);
    if o.domain != d {
      RowFacts(d, id);
      FrozenCarries(d.executions[id], o.domain.executions[id]);
      RowStepKeeps(d, id, o.domain.executions[id]);
    }
  }

  lemma EndedKeeps(d: Domain, id: ExecutionId, e: Execution, anchor: Time, completed: bool)
    requires DomainOk(d) && id in d.executions && d.executions[id].state.Started?
    requires RowStep(d.policy.limits, d.executions[id], e)
    requires (e.state.Completed? || e.state.Interrupted?) && e.endedAt == Some(anchor)
    ensures DomainOk(ApplyCadence(d.(executions := d.executions[id := e]), id, anchor, completed))
  {
    RowStepKeeps(d, id, e);
    var r := d.(executions := d.executions[id := e]);
    CadenceAppliesTo(r, id, anchor, completed);
  }

  lemma CadenceAppliesTo(r: Domain, id: ExecutionId, anchor: Time, completed: bool)
    requires DomainOk(r) && id in r.executions
    requires (r.executions[id].state.Completed? || r.executions[id].state.Interrupted?) &&
             r.executions[id].endedAt == Some(anchor)
    ensures DomainOk(ApplyCadence(r, id, anchor, completed))
  {
    hide ExecutionsOk, ContentOk, OwnedOk, HistoryOk, MessagesOk, CadenceOk, ApplyCadence, ActiveComponents;
    CadencedRows(r, id, anchor, completed);
    CadenceMoves(r, id, anchor, completed);
    CadenceWriteKeeps(r, ApplyCadence(r, id, anchor, completed));
  }

  lemma CadencedRows(r: Domain, id: ExecutionId, anchor: Time, completed: bool)
    requires MessagesOk(r) && id in r.executions
    ensures var n := ApplyCadence(r, id, anchor, completed);
            && MessagesOk(n) && ActiveComponents(n.messages) == ActiveComponents(r.messages)
            && n == r.(messages := n.messages, airedIn := n.airedIn)
  {
    var n := ApplyCadence(r, id, anchor, completed);
    assert ActiveComponents(n.messages) == ActiveComponents(r.messages) by {
      hide MessagesOk, MessageRowOk, Participants;
      SameActiveRows(r.messages, n.messages);
    }
    hide ActiveComponents;
    RowsKeepSlots(r, n);
  }

  lemma CadenceWriteKeeps(d: Domain, n: Domain)
    requires DomainOk(d) && MessagesOk(n) && CadenceOk(n)
    requires n == d.(messages := n.messages, airedIn := n.airedIn)
    requires ActiveComponents(n.messages) == ActiveComponents(d.messages)
    ensures DomainOk(n)
  {
    hide MessagesOk, CadenceOk, FrozenOk, ExecutionRowOk, WithinLimits, Ordered, ActiveComponents;
  }

  lemma CadenceKeepsAnchors(r: Domain, id: ExecutionId, anchor: Time, completed: bool)
    requires MessagesOk(r) && CadenceOk(r) && id in r.executions
    requires (r.executions[id].state.Completed? || r.executions[id].state.Interrupted?) &&
             r.executions[id].endedAt == Some(anchor)
    ensures CadenceOk(ApplyCadence(r, id, anchor, completed))
  {
    var n := ApplyCadence(r, id, anchor, completed);
    var in_ := Participants(r, r.executions[id].snapshot);
    forall x | x in n.messages && n.messages[x].state.Active? ensures Anchored(n, x) {
      assert Anchored(r, x) && MessageRowOk(r.messages[x]);
      if x in in_ {
        assert Names(r.executions[id], x);
      }
    }
  }

  /** Applying an airing: each participant still ACTIVE is next due one frozen interval after this airing's end, and is
      remembered with it; every other message keeps its row and its airing, so all due times stay anchored. */
  lemma CadenceMoves(r: Domain, id: ExecutionId, anchor: Time, completed: bool)
    requires MessagesOk(r) && CadenceOk(r) && id in r.executions
    requires (r.executions[id].state.Completed? || r.executions[id].state.Interrupted?) &&
             r.executions[id].endedAt == Some(anchor)
    ensures var n := ApplyCadence(r, id, anchor, completed);
            && CadenceOk(n) && n.messages.Keys == r.messages.Keys
            && forall x :: x in r.messages ==>
                 if r.messages[x].state.Active? && Names(r.executions[id], x) then
                   && n.messages[x].state.Active? && n.messages[x].interval.Some?
                   && n.messages[x].interval == r.messages[x].interval
                   && n.messages[x].nextDueAt == Some(anchor + n.messages[x].interval.value * SECOND)
                   && x in n.airedIn && n.airedIn[x] == id
                 else
                   && n.messages[x] == r.messages[x]
                   && (x in n.airedIn <==> x in r.airedIn) && (x in r.airedIn ==> n.airedIn[x] == r.airedIn[x])
  {
    CadenceKeepsAnchors(r, id, anchor, completed);
    hide CadenceOk, Anchored;
    forall x | x in r.messages && r.messages[x].state.Active? && Names(r.executions[id], x)
      ensures r.messages[x].interval.Some?
    {
      assert MessageRowOk(r.messages[x]);
    }
  }

  lemma AirCompletedKeeps(d: Domain, id: ExecutionId, token: Token, endedAt: Time, confirmedMs: Option<int>, now: Time)
    requires DomainOk(d)
    ensures DomainOk(AirCompleted(d, id, token, endedAt, confirmedMs, now).domain)
  {
    var o := AirCompleted(d, id, token, endedAt, confirmedMs, now);
    if o.domain != d {
      RowFacts(d, id);
      hide DomainOk, FrozenOk, WithinLimits;
      var e := o.domain.executions[id];
      assert FrozenOk(e) by { FrozenCarries(d.executions[id], e); }
      EndedKeeps(d, id, e, endedAt, true);
    }
  }

  lemma AirInterruptedKeeps(d: Domain, id: ExecutionId, token: Token, lastEvidenceAt: Time, confirmedMs: Option<int>,
                            now: Time)
    requires DomainOk(d)
    ensures DomainOk(AirInterrupted(d, id, token, lastEvidenceAt, confirmedMs, now).domain)
  {
    var o := AirInterrupted(d, id, token, lastEvidenceAt, confirmedMs, now);
    if o.domain != d {
      RowFacts(d, id);
      hide DomainOk, FrozenOk, WithinLimits;
      var e := o.domain.executions[id];
      assert FrozenOk(e) by { FrozenCarries(d.executions[id], e); }
      EndedKeeps(d, id, e, lastEvidenceAt, false);
    }
  }

  // -- policy -------------------------------------------------------------------------------------------------------

  /** A policy write under a new generation. */
  lemma PolicyWriteSettles(d: Domain, policy: Policy, now: Time)
    requires DomainOk(d) && PolicyOk(policy) && policy.generation == d.policy.generation + 1
    ensures DomainOk(SuppressStale(d.(policy := policy), now))
  {
    hide ExecutionsOk, ContentOk, OwnedOk, HistoryOk, MessageRowOk;
    var next := d.(policy := policy);
    assert MessagesOk(next);
    assert CadenceOk(next) by { CadenceOfRows(d, next); }
    hide MessagesOk, CadenceOk;
    NewGenerationSettles(d, next, now);
  }

  lemma SetIntervalKeeps(d: Domain, actor: Actor, seconds: int)
    requires DomainOk(d)
    ensures DomainOk(SetInterval(d, actor, seconds).domain)
  {
    hide ExecutionsOk, ContentOk, OwnedOk, HistoryOk, MessagesOk, CadenceOk;
    if SetInterval(d, actor, seconds).domain != d {
      SamePolicyKeeps(d, SetInterval(d, actor, seconds).domain.policy);
    }
  }

  /** A policy write that keeps the generation and the limits touches no composition. */
  lemma SamePolicyKeeps(d: Domain, policy: Policy)
    requires DomainOk(d) && PolicyOk(policy)
    requires policy.generation == d.policy.generation && policy.limits == d.policy.limits
    ensures DomainOk(d.(policy := policy))
  {
    hide FrozenOk, ExecutionRowOk, WithinLimits, Ordered, ActiveComponents, MessageRowOk, Names, PolicyOk;
    var n := d.(policy := policy);
    assert CadenceOk(n) by { hide MessagesOk, ExecutionsOk, ContentOk, OwnedOk, HistoryOk; CadenceOfRows(d, n); }
    hide CadenceOk;
    assert HistoryOk(n);
    hide HistoryOk;
    assert ContentOk(n) by {
      forall id | id in n.executions ensures FrozenOk(n.executions[id]) && CurrentContent(n, n.executions[id]) {
        assert CurrentContent(d, d.executions[id]);
      }
    }
  }

  lemma SetStingerKeyKeeps(d: Domain, actor: Actor, key: Option<nat>, usable: bool, now: Time)
    requires DomainOk(d)
    ensures DomainOk(SetStingerKey(d, actor, key, usable, now).domain)
  {
    hide MessagesOk, ExecutionsOk, ContentOk, OwnedOk, CadenceOk, HistoryOk;
    PolicyWriteSettles(d, Bump(d).policy.(stingerKey := key), now);
  }

  lemma SetLimitsKeeps(d: Domain, actor: Actor, maxActive: Option<int>, maxMessage: Option<int>,
                       maxAggregate: Option<int>, now: Time)
    requires DomainOk(d)
    ensures DomainOk(SetLimits(d, actor, maxActive, maxMessage, maxAggregate, now).domain)
  {
    hide MessagesOk, ExecutionsOk, ContentOk, OwnedOk, CadenceOk, HistoryOk;
    var o := SetLimits(d, actor, maxActive, maxMessage, maxAggregate, now);
    if o.domain != d {
      PolicyWriteSettles(d, o.domain.policy, now);
    }
  }

  lemma SetNativeAiringKeeps(d: Domain, actor: Actor, enabled: bool, available: bool, now: Time)
    requires DomainOk(d)
    ensures DomainOk(SetNativeAiring(d, actor, enabled, available, now).domain)
  {
    hide MessagesOk, ExecutionsOk, ContentOk, OwnedOk, CadenceOk, HistoryOk;
    PolicyWriteSettles(d, Bump(d).policy.(enabled := enabled), now);
  }

  // -- every call ---------------------------------------------------------------------------------------------------

  lemma ServeKeeps(d: Domain, call: Call, now: Time)
    requires DomainOk(d)
    ensures DomainOk(Serve(d, call, now).domain)
  {
    hide DomainOk;
    match call
    case PrepareMessage(m, actor, c, t, expiresAt) => PrepareKeeps(d, m, actor, c, t, expiresAt, now);
    case BindMessageMedia(m, actor, t, media, own, binding) => BindMediaKeeps(d, m, actor, t, media, own, binding);
    case SetMessageExpiry(m, actor, t, expiresAt, shown) => SetExpiryKeeps(d, m, actor, t, expiresAt, shown, now);
    case ActivateMessage(m, actor, t, binding, reading) => ActivateKeeps(d, m, actor, t, binding, reading, now);
    case ClearMessage(m, actor, t, expected) => ClearKeeps(d, m, actor, t, expected, now);
    case ExpireDueMessages => ExpireKeeps(d, now);
    case MaterializeDue(id, createdAt, reading, blocking) => MaterializeKeeps(d, id, now, createdAt, reading, blocking);
    case ReconcileStinger(failed, id, createdAt, reading) => ReconcileKeeps(d, failed, id, now, createdAt, reading);
    case RequestReplay(actor, request, id, createdAt, reading) => ReplayKeeps(d, actor, request, id, now, createdAt, reading);
    case BindExecutionMix(id, media, binding) => BindMixKeeps(d, id, media, binding, now);
    case FailPending(id, code) => FailKeeps(d, id, code, now);
    case SetDefaultInterval(actor, seconds) => SetIntervalKeeps(d, actor, seconds);
    case SetStinger(actor, key, usable) => SetStingerKeyKeeps(d, actor, key, usable, now);
    case SetActiveLimits(actor, maxActive, maxMessage, maxAggregate) =>
      SetLimitsKeeps(d, actor, maxActive, maxMessage, maxAggregate, now);
    case SetAiring(actor, enabled, available) => SetNativeAiringKeeps(d, actor, enabled, available, now);
  }
}
