/** The services as they run: transactions that read and rewrite the tables row by row under the policy lock
    (active_messages/services.py), each shown to leave exactly the domain its specification gives. */
module ActiveMessages {
  import opened Common
  import opened Ordering
  import opened Composition
  import opened Services
  import opened DomainInvariants

  class Store {
    var policy: Policy
    var messages: map<MessageId, Message>
    var executions: map<ExecutionId, Execution>
    var requests: map<Token, Request>
    var reconciled: map<ExecutionId, Option<ExecutionId>>
    var reconciles: map<ExecutionId, ExecutionId>
    var airedIn: map<MessageId, ExecutionId>

    /** The committed tables. */
    function St(): Domain
      reads this
    {
      Domain(policy, messages, executions, requests, reconciled, reconciles, airedIn)
    }

    ghost predicate Valid()
      reads this
    {
      DomainOk(St())
    }

    constructor (policy: Policy)
      requires PolicyOk(policy)
      ensures Valid() && St() == Domain(policy, map[], map[], map[], map[], map[], map[])
    {
      this.policy, messages, executions := policy, map[], map[];
      requests, reconciled, reconciles, airedIn := map[], map[], map[], map[];
    }

    /** A transaction that raised leaves the tables as it found them. */
    method Rollback(d: Domain)
      modifies this
      ensures St() == d
    {
      policy, messages, executions, requests := d.policy, d.messages, d.executions, d.requests;
      reconciled, reconciles, airedIn := d.reconciled, d.reconciles, d.airedIn;
    }

    // -- generation and staleness -----------------------------------------------------------------------------------

    method BumpGeneration()
      modifies `policy
      ensures St() == Bump(old(St()))
    {
      policy := policy.(generation := policy.generation + 1);
    }

    method SuppressStaleRows(now: Time)
      modifies `executions
      ensures St() == SuppressStale(old(St()), now)
    {
      var rest := executions.Keys;
      ghost var before := St();
      SuppressedNone(before, now);
      while rest != {}
        invariant rest <= before.executions.Keys
        invariant St() == SuppressedAmong(before, before.executions.Keys - rest, now)
        decreases |rest|
      {
        hide SuppressedAmong, SuppressStale, SuppressedRow, Finished;
        var x :| x in rest;
        SuppressedStep(before, rest, x, now);
        assert before.executions.Keys - (rest - {x}) == (before.executions.Keys - rest) + {x};
        var e := executions[x];
        if Prestart(e.state) && e.generation != policy.generation {
          executions := executions[x := Finished(e, Suppressed, StaleGeneration, now)];
        }
        rest := rest - {x};
      }
      SuppressedAll(before, now);
      assert before.executions.Keys - rest == before.executions.Keys;
    }

    method DueRows(now: Time) returns (due: set<MessageId>)
      ensures due == DueToExpire(St(), now)
    {
      due := {};
      var rest := messages.Keys;
      while rest != {}
        invariant rest <= messages.Keys
        invariant due == DueToExpire(St(), now) - rest
        decreases |rest|
      {
        var id :| id in rest;
        var m := messages[id];
        if m.state.Active? && m.expiresAt.Some? && m.expiresAt.value <= now {
          due := due + {id};
        }
        rest := rest - {id};
      }
    }

    method ExpireRows(due: set<MessageId>, now: Time)
      requires due <= messages.Keys
      modifies `messages
      ensures messages == map id | id in old(messages) ::
                if id in due then EndMessage(old(messages)[id], Expired, now, None) else old(messages)[id]
    {
      var rest := due;
      ghost var before := messages;
      while rest != {}
        invariant rest <= due && messages.Keys == before.Keys
        invariant forall id :: id in before ==>
          messages[id] == if id in due && id !in rest then EndMessage(before[id], Expired, now, None) else before[id]
        decreases |rest|
      {
        var id :| id in rest;
        messages := messages[id := EndMessage(messages[id], Expired, now, None)];
        rest := rest - {id};
      }
    }

    /** `_expire_locked`. */
    method ExpireDue(now: Time)
      modifies `policy, `messages, `executions
      ensures St() == ExpireLocked(old(St()), now)
    {
      var due := DueRows(now);
      if due != {} {
        BumpGeneration();
        ExpireRows(due, now);
        assert St() == Swept(old(St()), now);
        SuppressStaleRows(now);
      }
    }

    /** How every creating call begins. */
    method RefreshAll(now: Time)
      modifies `policy, `messages, `executions
      ensures St() == Refresh(old(St()), now)
    {
      ExpireDue(now);
      SuppressStaleRows(now);
    }

    // -- reading the active set -------------------------------------------------------------------------------------

    /** The ACTIVE rows, in whatever order they were read. */
    method ActiveRows() returns (reading: seq<Component>)
      ensures multiset(reading) == multiset(ActiveComponents(messages))
    {
      reading := [];
      var rest := messages.Keys;
      while rest != {}
        invariant rest <= messages.Keys
        invariant multiset(reading) + multiset(ActiveAmong(messages, rest)) == multiset(ActiveComponents(messages))
        decreases |rest|
      {
        var id :| id in rest;
        ActiveAmongWithout(messages, rest, id);
        rest := rest - {id};
        if messages[id].state.Active? {
          reading := reading + [ComponentOf(id, messages[id])];
        }
      }
      assert ActiveAmong(messages, rest) == {};
    }

    /** `_stinger` and `_check_eligible` over one reading. */
    method Assess(reading: seq<Component>, answer: StingerReading)
      returns (stinger: Option<StingerReading>, unfit: Option<Ineligible>)
      requires multiset(reading) == multiset(ActiveComponents(messages))
      ensures stinger == StingerFor(policy, ActiveComponents(messages), answer)
      ensures unfit == Eligibility(policy, ActiveComponents(messages), stinger)
      ensures stinger.Some? <==> policy.stingerKey.Some? && answer.StingerUsable? && answer.ms > 0 &&
                                 exists id :: id in messages && messages[id].state.Active? && messages[id].kind.Urgent?
      ensures stinger.Some? ==> stinger.value == answer
    {
      UrgentRows(messages);
      stinger := if policy.stingerKey.None? || !HasUrgent(reading) then None
                 else if answer.StingerUsable? && answer.ms > 0 then Some(answer) else None;
      UrgentReading(reading, ActiveComponents(messages));
      unfit := CheckEligible(policy.limits, reading, StingerMs(stinger));
      ActiveComponentsOnePerMessage(messages);
      EligibilityIgnoresReadingOrder(policy.limits, ActiveComponents(messages), reading, StingerMs(stinger));
    }

    method BuildAggregate(reading: seq<Component>, stinger: Option<StingerReading>) returns (built: BuildResult)
      requires multiset(reading) == multiset(ActiveComponents(messages))
      ensures built == Aggregate(ActiveComponents(messages), stinger)
    {
      built := Build(reading, PinOf(stinger), StingerMs(stinger));
      ActiveComponentsOnePerMessage(messages);
      BuildIgnoresReadingOrder(ActiveComponents(messages), reading, Listing(ActiveComponents(messages)), PinOf(stinger),
                               StingerMs(stinger));
    }

    /** `_open_execution`: the database allows one at most. */
    method FindOpen() returns (open: Option<ExecutionId>)
      requires ExecutionsOk(St())
      ensures open == OpenExecution(St())
    {
      open := None;
      var rest := executions.Keys;
      while rest != {} && open.None?
        invariant rest <= executions.Keys
        invariant open.None? ==> forall x :: x in executions && x !in rest ==> !Unfinished(executions[x].state)
        invariant open.Some? ==> open.value in executions && Unfinished(executions[open.value].state)
        decreases |rest|
      {
        var x :| x in rest;
        if Unfinished(executions[x].state) { open := Some(x); }
        rest := rest - {x};
      }
      if open.Some? && OpenExecution(St()).Some? {
        assert BothUnfinished(executions, open.value, OpenExecution(St()).value);
      }
    }

    /** The newest execution, by creation time and then id. */
    method FindNewest() returns (newest: Option<ExecutionId>)
      ensures newest.None? ==> executions == map[]
      ensures newest.Some? ==> IsNewest(executions, newest.value)
    {
      newest := None;
      var rest := executions.Keys;
      while rest != {}
        invariant rest <= executions.Keys
        invariant newest.None? ==> rest == executions.Keys
        invariant newest.Some? ==> newest.value in executions && newest.value !in rest &&
                                   forall o :: o in executions && o !in rest ==> NotNewer(executions, o, newest.value)
        decreases |rest|
      {
        var x :| x in rest;
        if newest.None? || !NotNewer(executions, x, newest.value) {
          newest := Some(x);
        }
        rest := rest - {x};
      }
    }

    /** `_blocking_failure`. */
    method FindBlocking(digest: Digest, codes: set<FailureCode>) returns (blocked: Option<FailureCode>)
      ensures blocked == BlockingFailure(St(), digest, codes)
    {
      var newest := FindNewest();
      blocked := None;
      if newest.Some? {
        OneNewest(executions, newest.value);
        if Blocks(St(), newest.value, digest, codes) {
          blocked := executions[newest.value].failure;
        }
      }
    }

    /** `min(due)`, when anything is due. */
    method EarliestDue(now: Time) returns (due: Option<Time>)
      ensures due.None? <==> DueTimes(messages, now) == {}
      ensures due.Some? ==> due.value == Earliest(DueTimes(messages, now))
    {
      due := None;
      var rest := messages.Keys;
      while rest != {}
        invariant rest <= messages.Keys
        invariant due.None? ==> forall id :: id in messages && id !in rest ==> !IsDue(messages[id], now)
        invariant due.Some? ==> due.value in DueTimes(messages, now) &&
                                forall id :: id in messages && id !in rest && IsDue(messages[id], now) ==>
                                  due.value <= messages[id].nextDueAt.value
        decreases |rest|
      {
        var id :| id in rest;
        var m := messages[id];
        if IsDue(m, now) {
          assert m.nextDueAt.value in DueTimes(messages, now);
          if due.None? || m.nextDueAt.value < due.value { due := m.nextDueAt; }
        }
        rest := rest - {id};
      }
      if due.Some? {
        ghost var e := Earliest(DueTimes(messages, now));
        ghost var id :| id in messages && IsDue(messages[id], now) && messages[id].nextDueAt.value == e;
      }
    }

    // -- creating an airing -----------------------------------------------------------------------------------------

    method Insert(id: ExecutionId, snapshot: Snapshot, reason: Reason, dueAt: Time, createdAt: Time)
      requires id !in executions
      modifies `executions
      ensures St() == Create(old(St()), id, snapshot, reason, dueAt, createdAt)
    {
      executions := executions[id := NewExecution(policy, snapshot, reason, dueAt, createdAt)];
    }

    /** `materialize_due_execution`. */
    method MaterializeDueExecution(id: ExecutionId, now: Time, createdAt: Time, answer: StingerReading,
                                   blocking: set<FailureCode>) returns (reply: Reply)
      requires Valid()
      modifies this
      ensures Valid()
      ensures Outcome(St(), reply) == Materialize(old(St()), id, now, createdAt, answer, blocking)
    {
      ghost var before := St();
      MaterializeKeeps(before, id, now, createdAt, answer, blocking);
      hide DomainOk, Refresh, Eligibility, Aggregate, StingerFor, BlockingFailure, OpenExecution, Create, DueTimes,
           ActiveComponents;
      RefreshKeeps(before, now);
      var saved := St();
      RefreshAll(now);
      RefreshedExecutions(before, now);
      var open := FindOpen();
      if open.Some? { return Airing(open.value, WasCoalesced); }
      var due := EarliestDue(now);
      if due.None? { return NoAiring; }
      var reading := ActiveRows();
      var stinger, unfit := Assess(reading, answer);
      if unfit.Some? { return Refused(CompositionIneligible(unfit.value)); }
      var built := BuildAggregate(reading, stinger);
      if !built.Built? {
        Rollback(saved);
        return Refused(LimitExceeded);
      }
      var blocked := FindBlocking(DigestOf(built.snapshot), blocking);
      if blocked.Some? { return Refused(CompositionBlocked(blocked.value)); }
      if id in executions {
        Rollback(saved);
        return Refused(IdConflict);
      }
      Insert(id, built.snapshot, Scheduled, due.value, createdAt);
      reply := Airing(id, WasCreated);
    }

    /** The common end of the creating calls. */
    method CreateCurrent(id: ExecutionId, reason: Reason, dueAt: Time, createdAt: Time, answer: StingerReading)
      returns (reply: Reply)
      modifies `executions
      ensures Outcome(St(), reply) == Creating(old(St()), id, reason, dueAt, createdAt, answer)
    {
      hide Eligibility, Aggregate, StingerFor, ActiveComponents, NewExecution;
      var reading := ActiveRows();
      var stinger, unfit := Assess(reading, answer);
      if unfit.Some? { return Refused(CompositionIneligible(unfit.value)); }
      var built := BuildAggregate(reading, stinger);
      if !built.Built? { return Refused(LimitExceeded); }
      if id in executions { return Refused(IdConflict); }
      Insert(id, built.snapshot, reason, dueAt, createdAt);
      reply := Done;
    }

    method NothingActive() returns (nothing: bool)
      ensures nothing <==> ActiveComponents(messages) == {}
    {
      var reading := ActiveRows();
      EmptyReading(reading, ActiveComponents(messages));
      nothing := reading == [];
    }

    /** The end of `reconcile_stinger_failure`, once the sweep is done; `saved` is what a rollback restores. */
    method ReconcileNow(saved: Domain, failed: ExecutionId, generation: nat, id: ExecutionId, now: Time, createdAt: Time,
                        answer: StingerReading) returns (reply: Reply)
      requires ExecutionsOk(St())
      modifies this
      ensures Outcome(St(), reply) == ReconcileEnd(saved, old(St()), failed, generation, id, now, createdAt, answer)
    {
      hide OpenExecution, ActiveComponents, Creating, ExecutionsOk;
      if generation != policy.generation {
        reconciled := reconciled[failed := None];
        return NoAiring;
      }
      var open := FindOpen();
      if open.Some? {
        reconciled := reconciled[failed := open];
        return Airing(open.value, WasCoalesced);
      }
      var nothing := NothingActive();
      if nothing {
        reconciled := reconciled[failed := None];
        return NoAiring;
      }
      CreatingShape(St(), id, Reconcile, now, createdAt, answer);
      reply := CreateCurrent(id, Reconcile, now, createdAt, answer);
      if reply == Done {
        reconciles := reconciles[id := failed];
        reconciled := reconciled[failed := Some(id)];
        reply := Airing(id, WasCreated);
      } else if !reply.code.CompositionIneligible? {
        Rollback(saved);
      }
    }

    /** `reconcile_stinger_failure`. */
    method ReconcileStingerFailure(failed: ExecutionId, id: ExecutionId, now: Time, createdAt: Time,
                                   answer: StingerReading) returns (reply: Reply)
      requires Valid()
      modifies this
      ensures Valid()
      ensures Outcome(St(), reply) == ReconcileFailure(old(St()), failed, id, now, createdAt, answer)
    {
      ReconcileKeeps(St(), failed, id, now, createdAt, answer);
      RefreshedExecutions(St(), now);
      hide DomainOk, Refresh, ReconcileEnd, ExecutionsOk;
      if failed !in executions { return Refused(UnknownExecution); }
      var row := executions[failed];
      if !row.state.Failed? || row.failure != Some(StingerPinUnavailable) { return Refused(NotReconcilable); }
      if failed in reconciled { return AiringOf(reconciled[failed], WasRepeated); }
      ReconcileByEnd(St(), failed, id, now, createdAt, answer);
      hide ReconcileFailure;
      var saved := St();
      RefreshAll(now);
      reply := ReconcileNow(saved, failed, row.generation, id, now, createdAt, answer);
    }

    /** The end of `request_manual_replay_outcome`, once the sweep is done. */
    method ReplayNow(saved: Domain, actor: Actor, token: Token, id: ExecutionId, now: Time, createdAt: Time,
                     answer: StingerReading) returns (reply: Reply)
      requires ExecutionsOk(St())
      modifies this
      ensures Outcome(St(), reply) == ReplayEnd(saved, old(St()), actor, token, id, now, createdAt, answer)
    {
      hide OpenExecution, ActiveComponents, Creating, ExecutionsOk;
      var open := FindOpen();
      if open.Some? {
        if executions[open.value].generation != policy.generation {
          Rollback(saved);
          return Refused(ExecutionBusy);
        }
        requests := requests[token := Request(actor.id, open.value, false)];
        return Airing(open.value, WasCoalesced);
      }
      var nothing := NothingActive();
      if nothing {
        Rollback(saved);
        return Refused(NothingIsActive);
      }
      CreatingShape(St(), id, Manual, now, createdAt, answer);
      reply := CreateCurrent(id, Manual, now, createdAt, answer);
      if reply == Done {
        requests := requests[token := Request(actor.id, id, true)];
        reply := Airing(id, WasCreated);
      } else if !reply.code.CompositionIneligible? {
        Rollback(saved);
      }
    }

    /** `request_manual_replay_outcome`. */
    method RequestManualReplay(actor: Actor, token: Token, id: ExecutionId, now: Time, createdAt: Time,
                               answer: StingerReading) returns (reply: Reply)
      requires Valid()
      modifies this
      ensures Valid()
      ensures Outcome(St(), reply) == Replay(old(St()), actor, token, id, now, createdAt, answer)
    {
      ReplayKeeps(St(), actor, token, id, now, createdAt, answer);
      RefreshedExecutions(St(), now);
      hide DomainOk, Refresh, ReplayEnd, ExecutionsOk;
      if !actor.control { return Refused(NotPermitted); }
      if token in requests {
        if requests[token].actor != actor.id { return Refused(TokenConflict); }
        return Airing(requests[token].execution, WasRepeated);
      }
      ReplayByEnd(St(), actor, token, id, now, createdAt, answer);
      hide Replay;
      var saved := St();
      RefreshAll(now);
      reply := ReplayNow(saved, actor, token, id, now, createdAt, answer);
    }

    // -- air evidence -----------------------------------------------------------------------------------------------

    /** `_apply_cadence`: component by component, each still-active participant once. */
    method ApplyCadenceRows(id: ExecutionId, anchor: Time, completed: bool)
      requires id in executions
      modifies `messages, `airedIn
      ensures St() == ApplyCadence(old(St()), id, anchor, completed)
    {
      var components := executions[id].snapshot.components;
      ghost var before := St();
      var done: set<MessageId> := {};
      CadencedNone(before, id, anchor, completed);
      for i := 0 to |components|
        invariant done == ActiveNamed(before.messages, components[..i])
        invariant St() == Cadenced(before, done, id, anchor, completed)
      {
        hide Cadenced, CadencedRow, ApplyCadence, ActiveNamed;
        var m := components[i].message;
        NamedStep(before.messages, components, i);
        CadencedStep(before, done, m, id, anchor, completed);
        if m !in done && m in messages && messages[m].state.Active? {
          messages := messages[m := CadencedRow(messages[m], anchor, completed)];
          airedIn := airedIn[m := id];
          done := done + {m};
        }
      }
      assert components[..|components|] == components;
    }

    /** `record_air_completed`. */
    method RecordAirCompleted(id: ExecutionId, token: Token, endedAt: Time, confirmedMs: Option<int>, now: Time)
      returns (reply: Reply)
      requires Valid()
      modifies this
      ensures Valid()
      ensures Outcome(St(), reply) == AirCompleted(old(St()), id, token, endedAt, confirmedMs, now)
    {
      hide DomainOk, ApplyCadence, EvidenceProblem;
      AirCompletedKeeps(St(), id, token, endedAt, confirmedMs, now);
      if id !in executions { return Refused(UnknownExecution); }
      var e := executions[id];
      if e.state.Completed? && e.token == Some(token) { return Done; }
      if !e.state.Started? { return Refused(NotOnAir); }
      var problem := EvidenceProblem(e, token, endedAt, confirmedMs);
      if problem.Some? { return Refused(problem.value); }
      if confirmedMs.None? { return Refused(EvidenceDuration); }
      executions := executions[id := e.(state := Completed, open := false, endedAt := Some(endedAt),
                                        terminalAt := Some(now), confirmedMs := confirmedMs)];
      ApplyCadenceRows(id, endedAt, true);
      reply := Done;
    }

    /** `record_air_interrupted`. */
    method RecordAirInterrupted(id: ExecutionId, token: Token, lastEvidenceAt: Time, confirmedMs: Option<int>, now: Time)
      returns (reply: Reply)
      requires Valid()
      modifies this
      ensures Valid()
      ensures Outcome(St(), reply) == AirInterrupted(old(St()), id, token, lastEvidenceAt, confirmedMs, now)
    {
      hide DomainOk, ApplyCadence, EvidenceProblem;
      AirInterruptedKeeps(St(), id, token, lastEvidenceAt, confirmedMs, now);
      if id !in executions { return Refused(UnknownExecution); }
      var e := executions[id];
      if e.state.Interrupted? && e.token == Some(token) { return Done; }
      if !e.state.Started? { return Refused(NotOnAir); }
      var problem := EvidenceProblem(e, token, lastEvidenceAt, confirmedMs);
      if problem.Some? { return Refused(problem.value); }
      executions := executions[id := e.(state := Interrupted, open := false, endedAt := Some(lastEvidenceAt),
                                        terminalAt := Some(now), confirmedMs := confirmedMs)];
      ApplyCadenceRows(id, lastEvidenceAt, false);
      reply := Done;
    }

    // -- message lifecycle ------------------------------------------------------------------------------------------

    /** `_current_active_id`. */
    method FindSuperseded(id: MessageId) returns (previous: Option<MessageId>)
      requires MessagesOk(St()) && id in messages && messages[id].state.Prepared?
      ensures previous == Superseded(St(), id)
    {
      previous := None;
      var rest := messages.Keys;
      while rest != {} && previous.None?
        invariant rest <= messages.Keys
        invariant previous.None? ==> forall o :: o in messages && o !in rest && o != id && messages[o].state.Active? ==>
                                       !SameSlot(messages[o], messages[id])
        invariant previous.Some? ==> previous.value in messages && previous.value != id &&
                                     messages[previous.value].state.Active? && SameSlot(messages[previous.value], messages[id])
        decreases |rest|
      {
        var o :| o in rest;
        if o != id && messages[o].state.Active? && SameSlot(messages[o], messages[id]) { previous := Some(o); }
        rest := rest - {o};
      }
      if previous.Some? && Superseded(St(), id).Some? {
        assert BothActive(messages, previous.value, Superseded(St(), id).value);
      }
    }

    /** `activate_message`. */
    method ActivateMessage(id: MessageId, actor: Actor, type_: TypeFacts, binding: Binding, answer: StingerReading, now: Time)
      returns (reply: Reply)
      requires Valid()
      modifies this
      ensures Valid()
      ensures Outcome(St(), reply) == Activate(old(St()), id, actor, type_, binding, answer, now)
    {
      hide ExecutionsOk, ContentOk, CadenceOk, HistoryOk, OwnedOk, MessagesOk, Eligibility, StingerFor, SuppressStale,
           Activated, ActivationRefusal, Candidates, MayActivate;
      ActivateKeeps(St(), id, actor, type_, binding, answer, now);
      if !actor.control && !actor.produce { return Refused(NotPermitted); }
      if id !in messages { return Refused(UnknownMessage); }
      var m := messages[id];
      if !MayActivate(actor, m, type_) { return Refused(NotPermitted); }
      if m.state.Active? { return Done; }
      var refusal := ActivationRefusal(m, type_, binding, now);
      if refusal.Some? { return Refused(refusal.value); }
      RefusalFacts(m, type_, binding, now);
      var previous := FindSuperseded(id);
      var unfit := AssessCandidates(id, previous, answer);
      if unfit.Some? { return Refused(CompositionIneligible(unfit.value)); }
      WriteActivation(id, previous, if type_.interval.Some? then type_.interval.value else policy.interval, now);
      reply := Done;
    }

    method WriteActivation(id: MessageId, previous: Option<MessageId>, interval: nat, now: Time)
      requires id in messages && (previous.Some? ==> previous.value in messages && previous.value != id)
      modifies this
      ensures St() == SuppressStale(Activated(old(St()), id, previous, interval, now), now)
    {
      var m := messages[id];
      BumpGeneration();
      if previous.Some? {
        messages := messages[previous.value := EndMessage(messages[previous.value], Cleared, now, Some(id))];
      }
      messages := messages[id := ActivatedRow(m, policy.generation, interval, now)];
      assert St() == Activated(old(St()), id, previous, interval, now);
      SuppressStaleRows(now);
    }

    /** The other rows a candidate set keeps. */
    method OtherRows(previous: Option<MessageId>) returns (reading: seq<Component>)
      ensures multiset(reading) == multiset(OthersAmong(messages, messages.Keys, previous))
    {
      reading := [];
      var rest := messages.Keys;
      while rest != {}
        invariant rest <= messages.Keys
        invariant multiset(reading) + multiset(OthersAmong(messages, rest, previous)) ==
                  multiset(OthersAmong(messages, messages.Keys, previous))
        decreases |rest|
      {
        var o :| o in rest;
        OthersAmongWithout(messages, rest, previous, o);
        rest := rest - {o};
        if messages[o].state.Active? && Some(o) != previous { reading := reading + [ComponentOf(o, messages[o])]; }
      }
      assert OthersAmong(messages, rest, previous) == {};
    }

    /** The active set an activation would produce must fit every limit. */
    method AssessCandidates(id: MessageId, previous: Option<MessageId>, answer: StingerReading)
      returns (unfit: Option<Ineligible>)
      requires id in messages && messages[id].state.Prepared?
      ensures var cs := Candidates(St(), id, previous);
              unfit == Eligibility(policy, cs, StingerFor(policy, cs, answer))
    {
      var others := OtherRows(previous);
      var reading := others + [ComponentOf(id, messages[id])];
      CandidatesReading(St(), id, previous, others);
      ghost var cs := Candidates(St(), id, previous);
      hide Candidates;
      var stinger := if policy.stingerKey.None? || !HasUrgent(reading) then None
                     else if answer.StingerUsable? && answer.ms > 0 then Some(answer) else None;
      UrgentReading(reading, cs);
      unfit := CheckEligible(policy.limits, reading, StingerMs(stinger));
      EligibilityIgnoresReadingOrder(policy.limits, cs, reading, StingerMs(stinger));
    }

    /** `clear_message`. */
    method ClearMessage(id: MessageId, actor: Actor, type_: TypeFacts, expected: Option<MessageState>, now: Time)
      returns (reply: Reply)
      requires Valid()
      modifies this
      ensures Valid()
      ensures Outcome(St(), reply) == Clear(old(St()), id, actor, type_, expected, now)
    {
      hide DomainOk, SuppressStale;
      ClearKeeps(St(), id, actor, type_, expected, now);
      if !actor.control && !actor.produce { return Refused(NotPermitted); }
      if id !in messages { return Refused(UnknownMessage); }
      var m := messages[id];
      if m.state.Cleared? || m.state.Expired? { return Done; }
      if expected.Some? && expected.value != m.state { return Refused(StateChanged); }
      if m.state.Prepared? {
        if m.producer != actor.id && !actor.control { return Refused(NotPermitted); }
        messages := messages[id := EndMessage(m, Cleared, now, None)];
        return Done;
      }
      if !MayClearActive(actor, m, type_) { return Refused(NotPermitted); }
      BumpGeneration();
      messages := messages[id := EndMessage(m, Cleared, now, None)];
      SuppressStaleRows(now);
      reply := Done;
    }

    /** `set_limits`. */
    method ApplyLimits(actor: Actor, maxActive: Option<int>, maxMessage: Option<int>, maxAggregate: Option<int>, now: Time)
      returns (reply: Reply)
      requires Valid()
      modifies this
      ensures Valid()
      ensures Outcome(St(), reply) == SetLimits(old(St()), actor, maxActive, maxMessage, maxAggregate, now)
    {
      hide DomainOk, SuppressStale;
      SetLimitsKeeps(St(), actor, maxActive, maxMessage, maxAggregate, now);
      if !actor.control { return Refused(NotPermitted); }
      if !InCeiling(maxActive, ABSOLUTE_MAX_ACTIVE_MESSAGES) || !InCeiling(maxMessage, ABSOLUTE_MAX_MESSAGE_SECONDS)
         || !InCeiling(maxAggregate, ABSOLUTE_MAX_AGGREGATE_SECONDS) { return Refused(OutOfRange); }
      var merged := Limits(maxActive.GetOr(policy.limits.maxActive), maxMessage.GetOr(policy.limits.maxMessageSeconds),
                           maxAggregate.GetOr(policy.limits.maxAggregateSeconds));
      if merged.maxMessageSeconds > merged.maxAggregateSeconds { return Refused(MessageExceedsAggregate); }
      if merged == policy.limits { return Done; }
      BumpGeneration();
      policy := policy.(limits := merged);
      SuppressStaleRows(now);
      reply := Done;
    }

    /** `bind_execution_mix`. */
    method BindExecutionMix(id: ExecutionId, media: Media, binding: Binding, now: Time) returns (reply: Reply)
      modifies this
      ensures old(Valid()) ==> Valid()
      ensures Outcome(St(), reply) == BindMix(old(St()), id, media, binding, now)
    {
      if Valid() {
        BindMixKeeps(St(), id, media, binding, now);
      }
      hide DomainOk, SuppressStale, BoundMix;
      if binding.AiringProhibited? { return Refused(MixRefused(InputUnavailable)); }
      if binding.Unavailable? { return Refused(RenditionUnavailable); }
      if id !in executions { return Refused(UnknownExecution); }
      var e := executions[id];
      if e.state.Ready? && e.mix.Some? && e.mix.value.id == media.id { return Done; }
      if !e.state.PendingRender? { return Refused(ExecutionNotPending); }
      if e.generation != policy.generation {
        SuppressStaleRows(now);
        return Refused(StaleRefused);
      }
      reply := BindCurrent(id, media, now);
    }

    /** Every lock held, the execution current: prove, then bind. */
    method BindCurrent(id: ExecutionId, media: Media, now: Time) returns (reply: Reply)
      requires id in executions
      modifies `executions
      ensures Outcome(St(), reply) == BoundMix(old(St()), id, media, now)
    {
      hide Proves, DigestOf;
      var e := executions[id];
      if DigestOf(e.snapshot) != e.digest || !Proves(media, e.snapshot) { return Refused(MixRefused(ProvenanceMismatch)); }
      if media.ms.None? || media.ms.value <= 0 { return Refused(MixRefused(RenditionInvalid)); }
      if media.ms.value > policy.limits.maxAggregateSeconds * 1000 {
        return Refused(MixRefused(FailureCode.AggregateTooLong));
      }
      executions := executions[id := e.(state := Ready, mix := Some(media), readyAt := Some(now))];
      reply := Done;
    }
  }

  function OthersAmong(messages: map<MessageId, Message>, ids: set<MessageId>, except: Option<MessageId>): set<Component>
    requires ids <= messages.Keys
  {
    set o | o in ids && messages[o].state.Active? && Some(o) != except :: ComponentOf(o, messages[o])
  }

  lemma OthersAmongWithout(messages: map<MessageId, Message>, ids: set<MessageId>, except: Option<MessageId>, id: MessageId)
    requires ids <= messages.Keys && id in ids
    ensures multiset(OthersAmong(messages, ids, except)) ==
              (if messages[id].state.Active? && Some(id) != except then multiset{ComponentOf(id, messages[id])}
               else multiset{}) +
              multiset(OthersAmong(messages, ids - {id}, except))
  {
    var c := ComponentOf(id, messages[id]);
    if messages[id].state.Active? && Some(id) != except {
      assert c in OthersAmong(messages, ids, except);
      MultisetWithout(c, OthersAmong(messages, ids, except));
      assert OthersAmong(messages, ids, except) - {c} == OthersAmong(messages, ids - {id}, except) by {
        forall x | x in OthersAmong(messages, ids - {id}, except) ensures x != c && x in OthersAmong(messages, ids, except) {
          var o :| o in ids - {id} && messages[o].state.Active? && Some(o) != except && ComponentOf(o, messages[o]) == x;
          assert x.message == o;
        }
      }
    } else {
      assert OthersAmong(messages, ids, except) == OthersAmong(messages, ids - {id}, except);
    }
  }

  // -- how the creating calls end -----------------------------------------------------------------------------------

  /** An airing of the current active set, or why there is none; nothing is written unless it is made. */
  ghost function Creating(d: Domain, id: ExecutionId, reason: Reason, dueAt: Time, createdAt: Time,
                          reading: StingerReading): Outcome
  {
    var cs := ActiveComponents(d.messages);
    var stinger := StingerFor(d.policy, cs, reading);
    var unfit := Eligibility(d.policy, cs, stinger);
    var built := Aggregate(cs, stinger);
    if unfit.Some? then Outcome(d, Refused(CompositionIneligible(unfit.value)))
    else if !built.Built? then Outcome(d, Refused(LimitExceeded))
    else if id in d.executions then Outcome(d, Refused(IdConflict))
    else Outcome(Create(d, id, built.snapshot, reason, dueAt, createdAt), Done)
  }

  lemma CreatingShape(d: Domain, id: ExecutionId, reason: Reason, dueAt: Time, createdAt: Time, reading: StingerReading)
    ensures var c := Creating(d, id, reason, dueAt, createdAt, reading);
            c.reply == Done || (c.reply.Refused? && c.domain == d)
  {
    hide Eligibility, Aggregate, StingerFor, ActiveComponents, NewExecution;
  }

  /** What a refusal inside the transaction leaves: an ineligible set keeps the sweep, anything else undoes it. */
  function AfterRefusal(d: Domain, r: Domain, reply: Reply): Outcome {
    if reply.Refused? && reply.code.CompositionIneligible? then Outcome(r, reply) else Outcome(d, reply)
  }

  ghost function ReplayEnd(d: Domain, r: Domain, actor: Actor, token: Token, id: ExecutionId, now: Time, createdAt: Time,
                           reading: StingerReading): Outcome
  {
    var open := OpenExecution(r);
    if open.Some? then
      if r.executions[open.value].generation != r.policy.generation then Outcome(d, Refused(ExecutionBusy))
      else Outcome(r.(requests := r.requests[token := Request(actor.id, open.value, false)]),
                   Airing(open.value, WasCoalesced))
    else if ActiveComponents(r.messages) == {} then Outcome(d, Refused(NothingIsActive))
    else
      var c := Creating(r, id, Manual, now, createdAt, reading);
      if c.reply == Done
      then Outcome(c.domain.(requests := c.domain.requests[token := Request(actor.id, id, true)]), Airing(id, WasCreated))
      else AfterRefusal(d, r, c.reply)
  }

  lemma ReplayByEnd(d: Domain, actor: Actor, token: Token, id: ExecutionId, now: Time, createdAt: Time,
                    reading: StingerReading)
    requires actor.control && token !in d.requests
    ensures Replay(d, actor, token, id, now, createdAt, reading) ==
              ReplayEnd(d, Refresh(d, now), actor, token, id, now, createdAt, reading)
  {
    hide Refresh, OpenExecution, Eligibility, Aggregate, StingerFor, NewExecution;
  }

  ghost function ReconcileEnd(d: Domain, r: Domain, failed: ExecutionId, generation: nat, id: ExecutionId, now: Time,
                              createdAt: Time, reading: StingerReading): Outcome
  {
    var open := OpenExecution(r);
    if generation != r.policy.generation then Outcome(r.(reconciled := r.reconciled[failed := None]), NoAiring)
    else if open.Some? then
      Outcome(r.(reconciled := r.reconciled[failed := open]), Airing(open.value, WasCoalesced))
    else if ActiveComponents(r.messages) == {} then Outcome(r.(reconciled := r.reconciled[failed := None]), NoAiring)
    else
      var c := Creating(r, id, Reconcile, now, createdAt, reading);
      if c.reply == Done
      then Outcome(c.domain.(reconciles := c.domain.reconciles[id := failed],
                             reconciled := c.domain.reconciled[failed := Some(id)]), Airing(id, WasCreated))
      else AfterRefusal(d, r, c.reply)
  }

  lemma ReconcileByEnd(d: Domain, failed: ExecutionId, id: ExecutionId, now: Time, createdAt: Time, reading: StingerReading)
    requires failed in d.executions && StingerFailed(d.executions[failed]) && failed !in d.reconciled
    ensures ReconcileFailure(d, failed, id, now, createdAt, reading) ==
              ReconcileEnd(d, Refresh(d, now), failed, d.executions[failed].generation, id, now, createdAt, reading)
  {
    hide Refresh, OpenExecution, Eligibility, Aggregate, StingerFor, NewExecution;
  }

  // -- loops over rows ----------------------------------------------------------------------------------------------

  ghost function SuppressedAmong(d: Domain, done: set<ExecutionId>, now: Time): Domain {
    d.(executions := map id | id in d.executions :: if id in done then SuppressedRow(d, id, now) else d.executions[id])
  }

  lemma SuppressedNone(d: Domain, now: Time)
    ensures SuppressedAmong(d, d.executions.Keys - d.executions.Keys, now) == d
  {
    assert SuppressedAmong(d, {}, now).executions == d.executions;
  }

  lemma SuppressedAll(d: Domain, now: Time)
    ensures SuppressedAmong(d, d.executions.Keys, now) == SuppressStale(d, now)
  {
    assert SuppressedAmong(d, d.executions.Keys, now).executions == SuppressStale(d, now).executions;
  }

  lemma SuppressedStep(d: Domain, rest: set<ExecutionId>, x: ExecutionId, now: Time)
    requires rest <= d.executions.Keys && x in rest
    ensures var s := SuppressedAmong(d, d.executions.Keys - rest, now);
            && x in s.executions && s.executions[x] == d.executions[x] && s.policy == d.policy
            && SuppressedAmong(d, (d.executions.Keys - rest) + {x}, now) ==
                 (if Stale(d, d.executions[x])
                  then s.(executions := s.executions[x := Finished(d.executions[x], Suppressed, StaleGeneration, now)]) else s)
  {
    var s, n := SuppressedAmong(d, d.executions.Keys - rest, now), SuppressedAmong(d, (d.executions.Keys - rest) + {x}, now);
    if Stale(d, d.executions[x]) {
      assert n.executions == s.executions[x := Finished(d.executions[x], Suppressed, StaleGeneration, now)];
    } else {
      assert n.executions == s.executions;
    }
  }

  function ActiveNamed(messages: map<MessageId, Message>, components: seq<Component>): set<MessageId> {
    set c | c in components && c.message in messages && messages[c.message].state.Active? :: c.message
  }

  lemma NamedStep(messages: map<MessageId, Message>, components: seq<Component>, i: nat)
    requires i < |components|
    ensures ActiveNamed(messages, components[..i + 1]) ==
              ActiveNamed(messages, components[..i]) +
              if components[i].message in messages && messages[components[i].message].state.Active?
              then {components[i].message} else {}
  {
    assert components[..i + 1] == components[..i] + [components[i]];
    var m := components[i].message;
    if m in messages && messages[m].state.Active? {
      assert components[i] in components[..i + 1];
    }
  }

  lemma CadencedNone(d: Domain, id: ExecutionId, anchor: Time, completed: bool)
    ensures Cadenced(d, {}, id, anchor, completed) == d
  {
    var n := Cadenced(d, {}, id, anchor, completed);
    assert n.messages == d.messages && n.airedIn == d.airedIn;
  }

  lemma CadencedStep(d: Domain, done: set<MessageId>, m: MessageId, id: ExecutionId, anchor: Time, completed: bool)
    ensures var s := Cadenced(d, done, id, anchor, completed);
            && s.messages.Keys == d.messages.Keys
            && (m in d.messages ==> s.messages[m].state == d.messages[m].state)
            && (m !in done && m in d.messages ==>
                  s.messages[m] == d.messages[m] &&
                  Cadenced(d, done + {m}, id, anchor, completed) ==
                    s.(messages := s.messages[m := CadencedRow(d.messages[m], anchor, completed)],
                       airedIn := s.airedIn[m := id]))
            && (m in done ==> done + {m} == done)
  {
    var s := Cadenced(d, done, id, anchor, completed);
    if m !in done && m in d.messages {
      var n := Cadenced(d, done + {m}, id, anchor, completed);
      assert n.messages == s.messages[m := CadencedRow(d.messages[m], anchor, completed)];
      assert n.airedIn == s.airedIn[m := id];
    } else if m in done {
      assert done + {m} == done;
    }
  }

  lemma CandidatesReading(d: Domain, id: MessageId, previous: Option<MessageId>, others: seq<Component>)
    requires id in d.messages && d.messages[id].state.Prepared?
    requires multiset(others) == multiset(OthersAmong(d.messages, d.messages.Keys, previous))
    ensures var cs := Candidates(d, id, previous);
            multiset(others + [ComponentOf(id, d.messages[id])]) == multiset(cs) && OnePerMessage(cs)
  {
    var cs, all := Candidates(d, id, previous), OthersAmong(d.messages, d.messages.Keys, previous);
    var own := ComponentOf(id, d.messages[id]);
    forall c | c in all ensures c.message != id {
      var o :| o in d.messages && d.messages[o].state.Active? && Some(o) != previous && ComponentOf(o, d.messages[o]) == c;
    }
    assert cs == all + {own} && own !in all;
    MultisetWithout(own, cs);
    assert cs - {own} == all;
  }

  lemma RefusalFacts(m: Message, type_: TypeFacts, binding: Binding, now: Time)
    requires ActivationRefusal(m, type_, binding, now).None?
    ensures m.state.Prepared? && m.media.Some?
  {
  }

  // -- readings -----------------------------------------------------------------------------------------------------

  function ActiveAmong(messages: map<MessageId, Message>, ids: set<MessageId>): set<Component>
    requires ids <= messages.Keys
  {
    set id | id in ids && messages[id].state.Active? :: ComponentOf(id, messages[id])
  }

  lemma ActiveAmongWithout(messages: map<MessageId, Message>, ids: set<MessageId>, id: MessageId)
    requires ids <= messages.Keys && id in ids
    ensures multiset(ActiveAmong(messages, ids)) ==
              (if messages[id].state.Active? then multiset{ComponentOf(id, messages[id])} else multiset{}) +
              multiset(ActiveAmong(messages, ids - {id}))
  {
    var c := ComponentOf(id, messages[id]);
    if messages[id].state.Active? {
      assert c in ActiveAmong(messages, ids);
      MultisetWithout(c, ActiveAmong(messages, ids));
      assert ActiveAmong(messages, ids) - {c} == ActiveAmong(messages, ids - {id}) by {
        forall x | x in ActiveAmong(messages, ids - {id}) ensures x != c && x in ActiveAmong(messages, ids) {
          var o :| o in ids - {id} && messages[o].state.Active? && ComponentOf(o, messages[o]) == x;
          assert x.message == o;
        }
      }
    } else {
      assert ActiveAmong(messages, ids) == ActiveAmong(messages, ids - {id});
    }
  }

  lemma UrgentReading(reading: seq<Component>, cs: set<Component>)
    requires multiset(reading) == multiset(cs)
    ensures HasUrgent(reading) <==> AnyUrgent(cs)
  {
    forall c ensures c in reading <==> c in cs {
      assert c in reading <==> c in multiset(reading);
    }
  }

  lemma UrgentRows(messages: map<MessageId, Message>)
    ensures AnyUrgent(ActiveComponents(messages)) <==>
              exists id :: id in messages && messages[id].state.Active? && messages[id].kind.Urgent?
  {
    if exists id :: id in messages && messages[id].state.Active? && messages[id].kind.Urgent? {
      var id :| id in messages && messages[id].state.Active? && messages[id].kind.Urgent?;
      assert ComponentOf(id, messages[id]) in ActiveComponents(messages);
    }
  }

  lemma EmptyReading(reading: seq<Component>, cs: set<Component>)
    requires multiset(reading) == multiset(cs)
    ensures reading == [] <==> cs == {}
  {
    assert |reading| == |multiset(reading)| == |multiset(cs)| == |cs|;
  }

  predicate IsDue(m: Message, now: Time) {
    m.state.Active? && m.nextDueAt.Some? && m.nextDueAt.value <= now
  }

  predicate NotNewer(executions: map<ExecutionId, Execution>, o: ExecutionId, x: ExecutionId)
    requires o in executions && x in executions
  {
    executions[o].createdAt < executions[x].createdAt || (executions[o].createdAt == executions[x].createdAt && o <= x)
  }

  lemma OneNewest(executions: map<ExecutionId, Execution>, x: ExecutionId)
    requires IsNewest(executions, x)
    ensures forall y :: IsNewest(executions, y) ==> y == x
  {
  }

  lemma RefreshedExecutions(d: Domain, now: Time)
    requires DomainOk(d)
    ensures ExecutionsOk(Refresh(d, now))
  {
    RefreshKeeps(d, now);
    hide Refresh, MessagesOk, ExecutionsOk, ContentOk, CadenceOk, HistoryOk, OwnedOk;
  }
}
