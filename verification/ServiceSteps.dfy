/** What one service call may and may not change: which rows it touches, how a message moves through its
    life, and that recorded history is never rewritten. */
module ServiceSteps {
  import opened Common
  import opened Ordering
  import opened Composition
  import opened Services
  import opened DomainInvariants

  // -- rows -----------------------------------------------------------------------------------------------------

  /** A service call writes only rows the engine was never handed. */
  predicate OwnRow(o: Execution, e: Execution) {
    e == o || (&& Prestart(o.state) && !WasAccepted(e.state) && (o.state.Ready? ==> !e.state.PendingRender?)
               && e.token == o.token && e.attempts == o.attempts && (o.mix.Some? ==> e.mix == o.mix)
               && e.createdAt == o.createdAt && e.generation == o.generation && e.snapshot == o.snapshot
               && e.digest == o.digest && e.reason == o.reason && !(StingerFailed(o)))
  }

  predicate NewRow(e: Execution) {
    !WasAccepted(e.state) && e.token.None? && e.attempts == 0
  }

  ghost predicate Serviced(d: Domain, n: Domain) {
    && (forall x :: x in d.executions ==> x in n.executions && OwnRow(d.executions[x], n.executions[x]))
    && (forall x :: x in n.executions && x !in d.executions ==> NewRow(n.executions[x]))
  }

  predicate Terminal(m: Message) {
    m.state.Cleared? || m.state.Expired?
  }

  /** PREPARED -> ACTIVE -> CLEARED or EXPIRED, never back; a terminal row never changes again, and while a
      message stays ACTIVE its content, activation, interval and due time do not change. */
  predicate Onward(o: Message, m: Message) {
    && (Terminal(o) ==> m == o)
    && (o.state.Active? ==> Terminal(m) || (&& m.state.Active? && m.nextDueAt == o.nextDueAt
                                            && m.interval == o.interval && m.activatedAt == o.activatedAt
                                            && m.media == o.media && m.kind == o.kind))
    && m.producer == o.producer && m.contentType == o.contentType
  }

  ghost predicate Lives(d: Domain, n: Domain) {
    forall m :: m in d.messages ==> m in n.messages && Onward(d.messages[m], n.messages[m])
  }

  /** The event history only grows: an answer once recorded is the answer forever. */
  ghost predicate Remembers(d: Domain, n: Domain) {
    && (forall t :: t in d.requests ==> t in n.requests && n.requests[t] == d.requests[t])
    && (forall x :: x in d.reconciled ==> x in n.reconciled && n.reconciled[x] == d.reconciled[x])
    && (forall x :: x in d.reconciles ==> x in n.reconciles && n.reconciles[x] == d.reconciles[x])
    && n.airedIn == d.airedIn && n.policy.generation >= d.policy.generation
  }

  ghost predicate Ordinary(d: Domain, n: Domain) {
    Serviced(d, n) && Lives(d, n) && Remembers(d, n)
  }

  // -- composing -------------------------------------------------------------------------------------------------

  lemma ServicedTwice(a: Domain, b: Domain, c: Domain)
    requires Serviced(a, b) && Serviced(b, c)
    ensures Serviced(a, c)
  {
    forall x | x in a.executions ensures x in c.executions && OwnRow(a.executions[x], c.executions[x]) {
      assert x in b.executions && OwnRow(a.executions[x], b.executions[x]) && OwnRow(b.executions[x], c.executions[x]);
    }
    forall x | x in c.executions && x !in a.executions ensures NewRow(c.executions[x]) {
      assert x in b.executions ==> NewRow(b.executions[x]) && OwnRow(b.executions[x], c.executions[x]);
    }
  }

  lemma LivesTwice(a: Domain, b: Domain, c: Domain)
    requires Lives(a, b) && Lives(b, c)
    ensures Lives(a, c)
  {
    forall m | m in a.messages ensures m in c.messages && Onward(a.messages[m], c.messages[m]) {
      assert m in b.messages && Onward(a.messages[m], b.messages[m]) && Onward(b.messages[m], c.messages[m]);
    }
  }

  lemma OrdinaryTwice(a: Domain, b: Domain, c: Domain)
    requires Ordinary(a, b) && Ordinary(b, c)
    ensures Ordinary(a, c)
  {
    hide Serviced, Lives;
    ServicedTwice(a, b, c);
    LivesTwice(a, b, c);
  }

  lemma SuppressStaleOrdinary(d: Domain, now: Time)
    ensures Ordinary(d, SuppressStale(d, now))
  {
  }

  /** Message and policy rows written, under the same or a later generation. */
  lemma WritesOrdinary(d: Domain, n: Domain)
    requires n == d.(policy := n.policy, messages := n.messages)
    requires Lives(d, n) && n.policy.generation >= d.policy.generation
    ensures Ordinary(d, n)
  {
    hide Lives;
  }

  lemma WriteThenSuppress(d: Domain, n: Domain, now: Time)
    requires n == d.(policy := n.policy, messages := n.messages)
    requires Lives(d, n) && n.policy.generation >= d.policy.generation
    ensures Ordinary(d, SuppressStale(n, now))
  {
    hide Lives, Ordinary, SuppressStale;
    WritesOrdinary(d, n);
    SuppressStaleOrdinary(n, now);
    OrdinaryTwice(d, n, SuppressStale(n, now));
  }

  lemma RefreshOrdinary(d: Domain, now: Time)
    ensures Ordinary(d, Refresh(d, now))
  {
    hide Ordinary, SuppressStale, Swept;
    SweptLives(d, now);
    if DueToExpire(d, now) != {} {
      WriteThenSuppress(d, Swept(d, now), now);
    } else {
      SameIsOrdinary(d);
    }
    SuppressStaleOrdinary(ExpireLocked(d, now), now);
    OrdinaryTwice(d, ExpireLocked(d, now), Refresh(d, now));
  }

  lemma SameIsOrdinary(d: Domain)
    ensures Ordinary(d, d)
  {
  }

  lemma SweptLives(d: Domain, now: Time)
    ensures var n := Swept(d, now);
            Lives(d, n) && n == d.(policy := n.policy, messages := n.messages) &&
            n.policy.generation >= d.policy.generation
  {
  }

  lemma CreateOrdinary(d: Domain, id: ExecutionId, snapshot: Snapshot, reason: Reason, dueAt: Time, createdAt: Time)
    requires id !in d.executions
    ensures Ordinary(d, Create(d, id, snapshot, reason, dueAt, createdAt))
  {
  }

  // -- each call ----------------------------------------------------------------------------------------------------

  lemma MessageCallsOrdinary(d: Domain, call: Call, now: Time)
    requires call.PrepareMessage? || call.BindMessageMedia? || call.SetMessageExpiry?
    ensures Ordinary(d, Serve(d, call, now).domain)
  {
    hide Ordinary;
    var n := Serve(d, call, now).domain;
    assert Lives(d, n);
    WritesOrdinary(d, n);
  }

  lemma ActivateOrdinary(d: Domain, id: MessageId, actor: Actor, type_: TypeFacts, binding: Binding,
                         reading: StingerReading, now: Time)
    ensures Ordinary(d, Activate(d, id, actor, type_, binding, reading, now).domain)
  {
    hide Ordinary, SuppressStale, Activated, Eligibility, Candidates, StingerFor;
    SameIsOrdinary(d);
    var n := Activate(d, id, actor, type_, binding, reading, now).domain;
    if n != d {
      var previous := Superseded(d, id);
      var interval := if type_.interval.Some? then type_.interval.value else d.policy.interval;
      ActivatedLives(d, id, previous, interval, now);
      WriteThenSuppress(d, Activated(d, id, previous, interval, now), now);
    }
  }

  lemma ActivatedLives(d: Domain, id: MessageId, previous: Option<MessageId>, interval: nat, now: Time)
    requires id in d.messages && d.messages[id].state.Prepared? && previous == Superseded(d, id)
    ensures var n := Activated(d, id, previous, interval, now);
            Lives(d, n) && n == d.(policy := n.policy, messages := n.messages) &&
            n.policy.generation >= d.policy.generation
  {
  }

  lemma ClearOrdinary(d: Domain, id: MessageId, actor: Actor, type_: TypeFacts, expected: Option<MessageState>, now: Time)
    ensures Ordinary(d, Clear(d, id, actor, type_, expected, now).domain)
  {
    hide Ordinary, SuppressStale;
    SameIsOrdinary(d);
    var n := Clear(d, id, actor, type_, expected, now).domain;
    if n != d {
      var row := EndMessage(d.messages[id], Cleared, now, None);
      WritesOrdinary(d, d.(messages := d.messages[id := row]));
      WriteThenSuppress(d, Bump(d).(messages := d.messages[id := row]), now);
    }
  }

  lemma ExecutionCallsOrdinary(d: Domain, call: Call, now: Time)
    requires DomainOk(d) && (call.BindExecutionMix? || call.FailPending?)
    ensures Ordinary(d, Serve(d, call, now).domain)
  {
    hide DomainOk, Proves, DigestOf, FrozenOk, WithinLimits, Ordinary, SuppressStale;
    SuppressStaleOrdinary(d, now);
    SameIsOrdinary(d);
    var n := Serve(d, call, now).domain;
    if n != d && n != SuppressStale(d, now) {
      RowFacts(d, call.id);
      var e := n.executions[call.id];
      assert OwnRow(d.executions[call.id], e) by { assert d.executions[call.id].state.PendingRender?; }
      OneRowOrdinary(d, call.id, e);
    }
  }

  lemma OneRowOrdinary(d: Domain, x: ExecutionId, e: Execution)
    requires x in d.executions && OwnRow(d.executions[x], e)
    ensures Ordinary(d, d.(executions := d.executions[x := e]))
  {
  }

  lemma PolicyCallsOrdinary(d: Domain, call: Call, now: Time)
    requires call.SetDefaultInterval? || call.SetStinger? || call.SetActiveLimits? || call.SetAiring?
    ensures Ordinary(d, Serve(d, call, now).domain)
  {
    hide Ordinary, SuppressStale;
    SameIsOrdinary(d);
    match call
    case SetDefaultInterval(_, seconds) =>
      if 0 <= seconds {
        WritesOrdinary(d, d.(policy := d.policy.(interval := seconds)));
      }
    case SetStinger(_, key, _) => WriteThenSuppress(d, d.(policy := Bump(d).policy.(stingerKey := key)), now);
    case SetActiveLimits(_, a, m, g) =>
      var l := d.policy.limits;
      WriteThenSuppress(d, d.(policy := Bump(d).policy.(limits :=
        Limits(a.GetOr(l.maxActive), m.GetOr(l.maxMessageSeconds), g.GetOr(l.maxAggregateSeconds)))), now);
    case SetAiring(_, enabled, _) => WriteThenSuppress(d, d.(policy := Bump(d).policy.(enabled := enabled)), now);
  }

  lemma MaterializeOrdinary(d: Domain, id: ExecutionId, now: Time, createdAt: Time, reading: StingerReading,
                            blocking: set<FailureCode>)
    ensures Ordinary(d, Materialize(d, id, now, createdAt, reading, blocking).domain)
  {
    hide Ordinary, Refresh, Eligibility, Aggregate, StingerFor, BlockingFailure, OpenExecution, Create;
    var r := Refresh(d, now);
    SameIsOrdinary(d);
    RefreshOrdinary(d, now);
    var n := Materialize(d, id, now, createdAt, reading, blocking).domain;
    if n != d && n != r {
      var cs := ActiveComponents(r.messages);
      var snapshot := Aggregate(cs, StingerFor(r.policy, cs, reading)).snapshot;
      var dueAt := Earliest(DueTimes(r.messages, now));
      CreateOrdinary(r, id, snapshot, Scheduled, dueAt, createdAt);
      OrdinaryTwice(d, r, n);
    }
  }

  lemma RecordedOrdinary(r: Domain, failed: ExecutionId, successor: Option<ExecutionId>)
    requires failed !in r.reconciled
    ensures Ordinary(r, Record(r, failed, successor))
  {
  }

  lemma SuccessorOrdinary(r: Domain, id: ExecutionId, snapshot: Snapshot, failed: ExecutionId, dueAt: Time, createdAt: Time)
    requires failed !in r.reconciled && id !in r.executions && id !in r.reconciles
    ensures Ordinary(r, WithSuccessor(r, id, snapshot, failed, dueAt, createdAt))
  {
  }

  lemma ReconcileOrdinary(d: Domain, failed: ExecutionId, id: ExecutionId, now: Time, createdAt: Time,
                          reading: StingerReading)
    requires DomainOk(d)
    ensures Ordinary(d, ReconcileFailure(d, failed, id, now, createdAt, reading).domain)
  {
    hide Ordinary, Refresh, OpenExecution, Airable, CurrentSnapshot, WithSuccessor, Record, ReconcileFailure, DomainOk;
    var r := Refresh(d, now);
    var n := ReconcileFailure(d, failed, id, now, createdAt, reading).domain;
    SameIsOrdinary(d);
    RefreshOrdinary(d, now);
    RefreshKeepsHistory(d, now);
    ReconcileWrites(d, failed, id, now, createdAt, reading);
    if n != d && n != r {
      RecordedOrdinary(r, failed, None);
      RecordedOrdinary(r, failed, OpenExecution(r));
      if Airable(r, reading) && id !in r.executions {
        ReconcilesAreRows(d);
        SuccessorOrdinary(r, id, CurrentSnapshot(r, reading), failed, now, createdAt);
      }
      OrdinaryTwice(d, r, n);
    }
  }

  lemma ReconcilesAreRows(d: Domain)
    requires DomainOk(d)
    ensures forall x :: x in d.reconciles ==> x in d.executions
  {
    hide MessagesOk, ExecutionsOk, ContentOk, CadenceOk, OwnedOk;
  }

  lemma RequestedOrdinary(r: Domain, token: Token, request: Request)
    requires token !in r.requests
    ensures Ordinary(r, r.(requests := r.requests[token := request]))
  {
  }

  lemma ReplayOrdinary(d: Domain, actor: Actor, token: Token, id: ExecutionId, now: Time, createdAt: Time,
                       reading: StingerReading)
    ensures Ordinary(d, Replay(d, actor, token, id, now, createdAt, reading).domain)
  {
    hide Ordinary, Refresh, OpenExecution, Airable, CurrentSnapshot, Create, Replay;
    var r := Refresh(d, now);
    var n := Replay(d, actor, token, id, now, createdAt, reading).domain;
    SameIsOrdinary(d);
    RefreshOrdinary(d, now);
    RefreshKeepsHistory(d, now);
    ReplayWrites(d, actor, token, id, now, createdAt, reading);
    if n != d && n != r {
      if OpenExecution(r).Some? {
        RequestedOrdinary(r, token, Request(actor.id, OpenExecution(r).value, false));
      } else {
        var c := Create(r, id, CurrentSnapshot(r, reading), Manual, now, createdAt);
        CreateOrdinary(r, id, CurrentSnapshot(r, reading), Manual, now, createdAt);
        CreateKeepsRequests(r, id, CurrentSnapshot(r, reading), Manual, now, createdAt);
        RequestedOrdinary(c, token, Request(actor.id, id, true));
        OrdinaryTwice(r, c, n);
      }
      OrdinaryTwice(d, r, n);
    }
  }

  lemma CreateKeepsRequests(d: Domain, id: ExecutionId, snapshot: Snapshot, reason: Reason, dueAt: Time, createdAt: Time)
    ensures Create(d, id, snapshot, reason, dueAt, createdAt).requests == d.requests
  {
  }

  /** No service call rewrites history, resurrects a message, moves a due time or touches a row the engine holds. */
  lemma ServeIsOrdinary(d: Domain, call: Call, now: Time)
    requires DomainOk(d)
    ensures Ordinary(d, Serve(d, call, now).domain)
  {
    hide Ordinary, DomainOk;
    match call
    case PrepareMessage(_, _, _, _, _) => MessageCallsOrdinary(d, call, now);
    case BindMessageMedia(_, _, _, _, _, _) => MessageCallsOrdinary(d, call, now);
    case SetMessageExpiry(_, _, _, _, _) => MessageCallsOrdinary(d, call, now);
    case ActivateMessage(m, actor, t, binding, reading) => ActivateOrdinary(d, m, actor, t, binding, reading, now);
    case ClearMessage(m, actor, t, expected) => ClearOrdinary(d, m, actor, t, expected, now);
    case ExpireDueMessages => ExpireOrdinary(d, now);
    case MaterializeDue(id, createdAt, reading, blocking) => MaterializeOrdinary(d, id, now, createdAt, reading, blocking);
    case ReconcileStinger(failed, id, createdAt, reading) => ReconcileOrdinary(d, failed, id, now, createdAt, reading);
    case RequestReplay(actor, request, id, createdAt, reading) =>
      ReplayOrdinary(d, actor, request, id, now, createdAt, reading);
    case BindExecutionMix(_, _, _) => ExecutionCallsOrdinary(d, call, now);
    case FailPending(_, _) => ExecutionCallsOrdinary(d, call, now);
    case SetDefaultInterval(_, _) => PolicyCallsOrdinary(d, call, now);
    case SetStinger(_, _, _) => PolicyCallsOrdinary(d, call, now);
    case SetActiveLimits(_, _, _, _) => PolicyCallsOrdinary(d, call, now);
    case SetAiring(_, _, _) => PolicyCallsOrdinary(d, call, now);
  }

  lemma ExpireOrdinary(d: Domain, now: Time)
    ensures Ordinary(d, ExpireLocked(d, now))
  {
    hide Ordinary, SuppressStale, Swept;
    SameIsOrdinary(d);
    SweptLives(d, now);
    WriteThenSuppress(d, Swept(d, now), now);
  }
}
