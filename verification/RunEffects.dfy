/** What the effects of the service calls mean for everything that happens afterwards: a message that ended is never
    played again, and an airing comes into being only as the aggregate of what is ACTIVE. */
module RunEffects {
  import opened Common
  import opened Ordering
  import opened Composition
  import opened Services
  import opened DomainInvariants
  import opened ServiceSteps
  import opened ServiceEffects
  import opened AiringEffects
  import opened CreatedAirings
  import opened Playout
  import opened PlayoutInvariants
  import opened Runs
  import Attempts
  import Guarantees
  import ExactlyOnce

  // -- messages that ended ------------------------------------------------------------------------------------------

  predicate IsOver(s: Station, id: MessageId) {
    id in s.domain.messages && Terminal(s.domain.messages[id])
  }

  lemma StaysOver(s: Station, m: Moment, id: MessageId)
    requires StationOk(s) && IsOver(s, id)
    ensures IsOver(Take(s, m), id)
  {
    hide DomainOk, AiringOk, Next;
    if m.step.Service? {
      ServiceKeepsOver(s, m, id);
    } else if !Attempts.EndsAiring(s, m.step) {
      if Enabled(s, m.step) {
        Attempts.NextQuietly(s, m.step, m.now);
      }
    } else if Take(s, m).domain != s.domain {
      Attempts.EndingWrites(s, m);
      EndingKeepsOver(s.domain, m.step.execution, s.Executions()[m.step.execution].token.GetOr(0),
                      Attempts.EndingAt(s, m), m.step.ms, m.now, id);
    }
  }

  lemma ServiceKeepsOver(s: Station, m: Moment, id: MessageId)
    requires StationOk(s) && IsOver(s, id) && m.step.Service?
    ensures IsOver(Take(s, m), id)
  {
    hide DomainOk, AiringOk, Serve, Serviced, Remembers;
    ServeIsOrdinary(s.domain, m.step.call, m.now);
    assert Onward(s.domain.messages[id], Serve(s.domain, m.step.call, m.now).domain.messages[id]);
  }

  lemma EndingKeepsOver(d: Domain, x: ExecutionId, token: Token, at: Time, ms: int, now: Time, id: MessageId)
    requires id in d.messages && Terminal(d.messages[id])
    ensures var n := AirCompleted(d, x, token, at, Some(ms), now).domain;
            id in n.messages && n.messages[id] == d.messages[id]
    ensures var n := AirInterrupted(d, x, token, at, Some(ms), now).domain;
            id in n.messages && n.messages[id] == d.messages[id]
  {
  }

  lemma {:induction false} OverForGood(s: Station, run: seq<Moment>, k: nat, id: MessageId)
    requires Initial(s) && k <= |run| && IsOver(After(s, run[..k]), id)
    ensures IsOver(After(s, run), id)
    decreases |run|
  {
    hide Initial, StationOk, IsOver, Take;
    if k == |run| {
      assert run[..k] == run;
    } else {
      var front := run[..|run| - 1];
      assert front[..k] == run[..k];
      OverForGood(s, front, k, id);
      ReachableOk(s, front);
      StaysOver(After(s, front), run[|run| - 1], id);
    }
  }

  /** A claim plays messages that are ACTIVE at that instant, and none but those. */
  lemma ClaimPlaysOnlyActive(s: Station, run: seq<Moment>, m: Moment, x: ExecutionId, input: AssemblyInput)
    requires Initial(s)
    requires Guarantees.InState(After(s, run), x, Accepted) && Guarantees.InState(Take(After(s, run), m), x, Claimed)
    requires var n := After(s, run);
             && x in n.publications && n.publications[x].media.provenance.Some?
             && input in n.publications[x].media.provenance.value.inputs && input.MessageInput?
    ensures var d := After(s, run).domain;
            input.part.message in d.messages && d.messages[input.part.message].state.Active?
  {
    hide Initial, After, Take, ActiveComponents, Ordered, Guarantees.MessageInputs, DomainOk;
    Guarantees.ClaimPlaysTheActiveSet(s, run, m, x);
    var d := After(s, run).domain;
    var cs := Ordered(ActiveComponents(d.messages));
    OrderedIsTheSet(ActiveComponents(d.messages));
    var e := After(s, run).Executions()[x];
    var alert := if e.snapshot.stinger.Some? then [StingerInput(e.snapshot.stinger.value)] else [];
    var c := InputIsOf(alert, cs, input);
    ComponentIsActive(d, c);
  }

  lemma InputIsOf(alert: seq<AssemblyInput>, cs: seq<Component>, input: AssemblyInput) returns (c: Component)
    requires input in alert + Guarantees.MessageInputs(cs) && input.MessageInput?
    requires forall a :: a in alert ==> a.StingerInput?
    ensures c in cs && c.message == input.part.message
  {
    var inputs := Guarantees.MessageInputs(cs);
    assert input in inputs;
    var i :| 0 <= i < |inputs| && inputs[i] == input;
    c := cs[i];
  }

  lemma ComponentIsActive(d: Domain, c: Component)
    requires c in ActiveComponents(d.messages)
    ensures c.message in d.messages && d.messages[c.message].state.Active?
  {
  }

  /** Once a message has been cleared, no claim ever plays it again, whatever happens in between. */
  lemma ClearedIsNeverPlayed(s: Station, run: seq<Moment>, k: nat, m: Moment, x: ExecutionId, id: MessageId,
                             input: AssemblyInput)
    requires Initial(s) && k < |run| && run[k].step.Service? && run[k].step.call.ClearMessage?
    requires run[k].step.call.message == id && ExactlyOnce.ReplyTo(After(s, run[..k]), run[k]) == Some(Done)
    requires Guarantees.InState(After(s, run), x, Accepted) && Guarantees.InState(Take(After(s, run), m), x, Claimed)
    requires var n := After(s, run);
             && x in n.publications && n.publications[x].media.provenance.Some?
             && input in n.publications[x].media.provenance.value.inputs && input.MessageInput?
    ensures input.part.message != id
  {
    hide Initial, StationOk, DomainOk, Take, Serve;
    assert run[..k + 1][..k] == run[..k];
    ReachableOk(s, run[..k]);
    ClearLeavesOver(After(s, run[..k]), run[k], id);
    OverForGood(s, run, k + 1, id);
    ClaimPlaysOnlyActive(s, run, m, x, input);
  }

  lemma ClearLeavesOver(s: Station, m: Moment, id: MessageId)
    requires StationOk(s) && m.step.Service? && m.step.call.ClearMessage? && m.step.call.message == id
    requires ExactlyOnce.ReplyTo(s, m) == Some(Done)
    ensures IsOver(Take(s, m), id)
  {
    hide DomainOk, AiringOk, Serve;
    ClearDoes(s.domain, id, m.step.call.actor, m.step.call.type_, m.step.call.expected, m.now);
    hide NewComposition, SameHistory;
  }

  // -- airings that come into being ---------------------------------------------------------------------------------

  predicate CreatesAirings(call: Call) {
    call.MaterializeDue? || call.ReconcileStinger? || call.RequestReplay?
  }

  /** Only the three creating calls make an execution, and it airs everything ACTIVE after the sweep: the alert leads it
      exactly when one of those messages is urgent, the policy has a key and the key is usable with a positive duration, and
      its accounted length is the length of its messages and of the alert if it leads. */
  lemma EveryAiringIsOfTheActiveSet(d: Domain, call: Call, now: Time, x: ExecutionId)
    requires DomainOk(d) && x !in d.executions && x in Serve(d, call, now).domain.executions
    ensures CreatesAirings(call)
    ensures var r := Serve(d, ExpireDueMessages, now).domain;
            var s := Serve(d, call, now).domain.executions[x].snapshot;
            var active := ActiveIds(r);
            && active != {} && Reads(r.messages, active, s.components) && InAirOrder(s.components)
            && (s.stinger.Some? <==>
                  (exists m :: m in active && r.messages[m].kind.Urgent?) && r.policy.stingerKey.Some? &&
                  call.reading.StingerUsable? && call.reading.ms > 0)
            && (s.stinger.Some? ==> s.stinger.value == call.reading.pin)
            && s.accountedMs == AirtimeMs(r.messages, active) + if s.stinger.Some? then call.reading.ms else 0
  {
    hide DomainOk, Serve, Refresh, ExpireLocked, Reads, InAirOrder, AirtimeMs, ActiveIds, Fits;
    if !CreatesAirings(call) {
      OthersCreateNone(d, call, now);
    }
    SweepKeepsKeys(d, now);
    if call.MaterializeDue? {
      MaterializeDoes(d, call.id, now, call.createdAt, call.reading, call.blocking);
    } else if call.ReconcileStinger? {
      ReconcileDoes(d, call.failed, call.id, now, call.createdAt, call.reading);
    } else if call.RequestReplay? {
      ReplayDoes(d, call.actor, call.request, call.id, now, call.createdAt, call.reading);
    }
  }

  lemma SweepKeepsKeys(d: Domain, now: Time)
    requires DomainOk(d)
    ensures Serve(d, ExpireDueMessages, now).domain.executions.Keys == d.executions.Keys
  {
    hide DomainOk, Serve;
    ExpireDoes(d, now);
  }

  lemma OthersCreateNone(d: Domain, call: Call, now: Time)
    requires DomainOk(d) && !CreatesAirings(call)
    ensures Serve(d, call, now).domain.executions.Keys == d.executions.Keys
  {
    hide DomainOk, Serve;
    match call
    case PrepareMessage(m, actor, c, t, expiresAt) => PrepareDoes(d, m, actor, c, t, expiresAt, now);
    case BindMessageMedia(m, actor, t, media, own, binding) => BindMediaDoes(d, m, actor, t, media, own, binding, now);
    case SetMessageExpiry(m, actor, t, expiresAt, shown) => SetExpiryDoes(d, m, actor, t, expiresAt, shown, now);
    case ActivateMessage(m, actor, t, binding, reading) => ActivateDoes(d, m, actor, t, binding, reading, now);
    case ClearMessage(m, actor, t, expected) => ClearDoes(d, m, actor, t, expected, now);
    case ExpireDueMessages => ExpireDoes(d, now);
    case BindExecutionMix(id, media, binding) => BindExecutionMixDoes(d, id, media, binding, now);
    case FailPending(id, code) => FailPendingDoes(d, id, code, now);
    case SetDefaultInterval(actor, seconds) => SetIntervalDoes(d, actor, seconds, now);
    case SetStinger(actor, key, usable) => SetStingerDoes(d, actor, key, usable, now);
    case SetActiveLimits(actor, maxActive, maxMessage, maxAggregate) =>
      SetLimitsDoes(d, actor, maxActive, maxMessage, maxAggregate, now);
    case SetAiring(actor, enabled, available) => SetAiringDoes(d, actor, enabled, available, now);
  }
}
