/** Attempts are counted exactly, so an execution is spliced at most MAX_ATTEMPTS times; and a due time moves
    only when an airing that contained the message ended. */
module Attempts {
  import opened Common
  import opened Composition
  import opened Services
  import opened DomainInvariants
  import opened ServiceSteps
  import opened Playout
  import opened PlayoutInvariants
  import opened PlayoutSteps
  import opened Runs
  import opened Airings

  // -- what one step issues -----------------------------------------------------------------------------------------

  ghost predicate SameAttempts(s: Station, n: Station) {
    && n.issued == s.issued
    && (forall x :: x in s.Executions() ==> x in n.Executions() && n.Executions()[x].attempts == s.Executions()[x].attempts)
    && (forall x :: x in n.Executions() && x !in s.Executions() ==> n.Executions()[x].attempts == 0)
  }

  ghost predicate OneMoreAttempt(s: Station, n: Station, x: ExecutionId, token: Token) {
    && x in s.Executions() && s.Executions()[x].attempts < MAX_ATTEMPTS
    && token !in s.issued && n.issued == s.issued[token := x]
    && n.Executions().Keys == s.Executions().Keys
    && (forall y :: y in s.Executions() ==>
          n.Executions()[y].attempts == s.Executions()[y].attempts + if y == x then 1 else 0)
  }

  ghost predicate Counted(s: Station, n: Station) {
    SameAttempts(s, n) || exists x, token :: OneMoreAttempt(s, n, x, token)
  }

  /** A playout step that ends no airing: the messages keep their rows, and tokens are counted. */
  ghost predicate Quietly(s: Station, n: Station) {
    n.domain.messages == s.domain.messages && Counted(s, n)
  }

  lemma OneRowQuietly(s: Station, x: ExecutionId, e: Execution, n: Station)
    requires x in s.Executions() && e.attempts == s.Executions()[x].attempts
    requires n.domain == WithRow(s, x, e).domain && n.issued == s.issued
    ensures Quietly(s, n)
  {
    assert SameAttempts(s, n);
  }

  lemma SameRowsQuietly(s: Station, n: Station)
    requires n.domain == s.domain && n.issued == s.issued
    ensures Quietly(s, n)
  {
    assert SameAttempts(s, n);
  }

  lemma RedispatchQuietly(s: Station, x: ExecutionId, token: Token, now: Time)
    requires x in s.Executions() && x in s.publications && token !in s.issued
    ensures Quietly(s, Redispatch(s, x, token, now))
  {
    hide WithRow, Quietly;
    var o, n := s.Executions()[x], Redispatch(s, x, token, now);
    if !Insertable(s.publications[x]) {
      FinishQuietly(s, x, Failed, PublicationUnavailable, now);
    } else if o.attempts >= MAX_ATTEMPTS {
      FinishQuietly(s, x, Failed, DispatchExhausted, now);
    } else {
      RotateQuietly(s, x, token, now);
    }
  }

  lemma FinishQuietly(s: Station, x: ExecutionId, state: ExecutionState, code: FailureCode, now: Time)
    requires x in s.Executions()
    ensures Quietly(s, WithRow(s, x, Finished(s.Executions()[x], state, code, now)))
  {
    hide Quietly;
    var e := Finished(s.Executions()[x], state, code, now);
    OneRowQuietly(s, x, e, WithRow(s, x, e));
  }

  lemma SuppressQuietly(s: Station, x: ExecutionId, now: Time)
    requires x in s.Executions()
    ensures Quietly(s, Suppress(s, x, now))
  {
    hide Quietly;
    FinishQuietly(s, x, Suppressed, StaleGeneration, now);
  }

  lemma RotateQuietly(s: Station, x: ExecutionId, token: Token, now: Time)
    requires x in s.Executions() && token !in s.issued && s.Executions()[x].attempts < MAX_ATTEMPTS
    ensures Quietly(s, NewAttempt(s, x, token, now))
  {
    var n := NewAttempt(s, x, token, now);
    assert OneMoreAttempt(s, n, x, token) by {
      assert n.Executions() == s.Executions()[x := Rotated(s.Executions()[x], token, now)];
    }
  }

  lemma DispatchQuietly(s: Station, x: ExecutionId, token: Token, now: Time)
    requires token !in s.issued
    ensures Quietly(s, Dispatch(s, x, token, now))
  {
    hide Quietly, Redispatch, StaleNow;
    SameRowsQuietly(s, s);
    if x in s.Executions() && x in s.publications {
      RedispatchQuietly(s, x, token, now);
    }
  }

  lemma PublicationFailsQuietly(s: Station, x: ExecutionId, code: FailureCode, now: Time)
    ensures Quietly(s, PublicationFails(s, x, code, now))
  {
    hide Quietly, WithRow;
    SameRowsQuietly(s, s);
    if x in s.Executions() {
      FinishQuietly(s, x, Failed, code, now);
    }
  }

  lemma DeliverQuietly(s: Station, c: Command, item: LogItemId, category: bool, now: Time)
    ensures Quietly(s, Deliver(s, c, item, category, now))
  {
    hide Quietly, StaleNow, InsertedToken;
    SameRowsQuietly(s, s);
    if Admits(s, c, category) {
      OneRowQuietly(s, c.execution, AcceptedRow(s.Executions()[c.execution], s.engine, now),
                    Deliver(s, c, item, category, now));
    }
  }

  lemma AuthorizeQuietly(s: Station, item: LogItemId, named: bool, now: Time)
    ensures Quietly(s, AuthorizeOpen(s, item, named, now))
  {
    hide Quietly, GateOpen, Suppress;
    SameRowsQuietly(s, s);
    SameRowsQuietly(s, s.(phase := Opening(item)));
    if Current(s, item) {
      var x := s.insertions[item].execution;
      SuppressQuietly(s, x, now);
      var e := ClaimedRow(RowOf(s, item), s.engine, now);
      OneRowQuietly(s, x, e, WithRow(s, x, e).(phase := Opening(item)));
    }
  }

  lemma ReportQuietly(s: Station, item: LogItemId, token: Token, now: Time)
    requires token !in s.issued
    ensures Quietly(s, ReportNotAired(s, item, token, now))
  {
    hide Quietly, Redispatch, Suppress, StaleNow;
    SameRowsQuietly(s, s);
    if Current(s, item) {
      var x := s.insertions[item].execution;
      SuppressQuietly(s, x, now);
      if x in s.publications {
        RedispatchQuietly(s, x, token, now);
      }
    }
  }

  lemma HeldQuietly(s: Station, x: ExecutionId, token: Token, now: Time)
    requires token !in s.issued
    ensures Quietly(s, HeldStep(s, x, token, now))
  {
    hide Quietly, Redispatch, Suppress, StaleNow, InsertionOf;
    SameRowsQuietly(s, s);
    if x in s.Executions() {
      SuppressQuietly(s, x, now);
      if x in s.publications {
        RedispatchQuietly(s, x, token, now);
      }
    }
  }

  lemma SyncQuietly(s: Station, x: ExecutionId, claimedAt: Option<Time>, phase: Phase)
    ensures Quietly(s, SyncStarted(s, x, claimedAt))
    ensures Quietly(s, SyncStarted(s, x, claimedAt).(phase := phase))
  {
    hide Quietly, Evidence;
    var n := SyncStarted(s, x, claimedAt);
    if n.domain == s.domain {
      SameRowsQuietly(s, n);
      SameRowsQuietly(s, n.(phase := phase));
    } else {
      OneRowQuietly(s, x, n.Executions()[x], n);
      OneRowQuietly(s, x, n.Executions()[x], n.(phase := phase));
    }
  }

  lemma BootSyncQuietly(s: Station, x: ExecutionId, claimedAt: Option<Time>)
    ensures Quietly(s, BootSync(s, x, claimedAt))
  {
    hide Quietly, SyncStarted;
    SameRowsQuietly(s, s);
    if s.phase.Booting? {
      SyncQuietly(s, x, claimedAt, Booting(s.phase.synced + {x}));
    }
  }

  lemma SettleQuietly(s: Station, x: ExecutionId, token: Token, evidenceAt: Time, ms: int, now: Time)
    requires token !in s.issued
    requires x in s.Executions() ==> !s.Executions()[x].state.Started?
    ensures Quietly(s, BootSettle(s, x, token, evidenceAt, ms, now))
  {
    hide Quietly, Redispatch, Suppress, StaleNow, AirInterrupted;
    SameRowsQuietly(s, s);
    if x in s.Executions() {
      SuppressQuietly(s, x, now);
      if x in s.publications {
        RedispatchQuietly(s, x, token, now);
      }
    }
  }

  /** Does this step end an airing? */
  predicate EndsAiring(s: Station, step: Step) {
    || step.EvidenceEnded?
    || (step.BootSettled? && step.execution in s.Executions() && s.Executions()[step.execution].state.Started?)
  }

  lemma NextQuietly(s: Station, step: Step, now: Time)
    requires Enabled(s, step) && !step.Service? && !EndsAiring(s, step)
    ensures Quietly(s, Next(s, step, now))
  {
    hide Quietly, Serve, Publish, PublicationFails, Dispatch, Deliver, AuthorizeOpen, ReportNotAired, SyncStarted,
         SyncEnded, BootSync, BootSettle, HeldStep, AirStart, ClaimPlayback, BuildDeck;
    match step
    case PublicationFailed(x, code) => PublicationFailsQuietly(s, x, code, now);
    case Dispatched(x, token) => DispatchQuietly(s, x, token, now);
    case Delivered(command, item, category) => DeliverQuietly(s, command, item, category, now);
    case Authorized(item, named) => AuthorizeQuietly(s, item, named, now);
    case NotAired(item, token) => ReportQuietly(s, item, token, now);
    case EvidenceStarted(x, claimedAt) => SyncQuietly(s, x, claimedAt, s.phase);
    case BootSynced(x, claimedAt) => BootSyncQuietly(s, x, claimedAt);
    case BootSettled(x, token, evidenceAt, ms) => SettleQuietly(s, x, token, evidenceAt, ms, now);
    case HeldStepped(x, token) => HeldQuietly(s, x, token, now);
    case Published(x) => PublishQuietly(s, x);
    case AirStarts(item, at) => AirStartQuietly(s, item, at);
    case PlaybackClaimed(commits, reported) => DeckQuietly(s, commits, reported);
    case DeckBuilt(built) => DeckQuietly(s, built, built);
    case TrackDeleted(_) => SameRowsQuietly(s, Next(s, step, now));
    case FileLost(_) => SameRowsQuietly(s, Next(s, step, now));
    case LogItemDeleted(_) => SameRowsQuietly(s, Next(s, step, now));
    case Restarted(_) => SameRowsQuietly(s, Next(s, step, now));
    case Booted => SameRowsQuietly(s, Next(s, step, now));
  }

  lemma PublishQuietly(s: Station, x: ExecutionId)
    ensures Quietly(s, Publish(s, x))
  {
    hide Quietly;
    SameRowsQuietly(s, Publish(s, x));
  }

  lemma AirStartQuietly(s: Station, item: LogItemId, at: Time)
    ensures Quietly(s, AirStart(s, item, at))
  {
    hide Quietly;
    SameRowsQuietly(s, AirStart(s, item, at));
  }

  lemma DeckQuietly(s: Station, commits: bool, reported: bool)
    ensures Quietly(s, ClaimPlayback(s, commits, reported)) && Quietly(s, BuildDeck(s, commits))
  {
    hide Quietly;
    SameRowsQuietly(s, ClaimPlayback(s, commits, reported));
    SameRowsQuietly(s, BuildDeck(s, commits));
  }

  // -- attempts -----------------------------------------------------------------------------------------------------

  function TokensOf(s: Station, x: ExecutionId): set<Token> {
    set t | t in s.issued && s.issued[t] == x
  }

  ghost predicate AttemptsCounted(s: Station) {
    && (forall t :: t in s.issued ==> s.issued[t] in s.Executions())
    && (forall x :: x in s.Executions() ==>
          |TokensOf(s, x)| == s.Executions()[x].attempts <= MAX_ATTEMPTS)
  }

  lemma CountedKeeps(s: Station, n: Station)
    requires AttemptsCounted(s) && Counted(s, n)
    ensures AttemptsCounted(n)
  {
    if SameAttempts(s, n) {
      SameAttemptsKeep(s, n);
    } else {
      var x, token :| OneMoreAttempt(s, n, x, token);
      OneMoreKeeps(s, n, x, token);
    }
  }

  lemma SameAttemptsKeep(s: Station, n: Station)
    requires AttemptsCounted(s) && SameAttempts(s, n)
    ensures AttemptsCounted(n)
  {
    forall x | x in n.Executions() ensures |TokensOf(n, x)| == n.Executions()[x].attempts <= MAX_ATTEMPTS {
      assert TokensOf(n, x) == TokensOf(s, x);
      if x !in s.Executions() {
        assert TokensOf(s, x) == {};
      }
    }
  }

  lemma OneMoreKeeps(s: Station, n: Station, x: ExecutionId, token: Token)
    requires AttemptsCounted(s) && OneMoreAttempt(s, n, x, token)
    ensures AttemptsCounted(n)
  {
    hide TokensOf;
    forall y | y in n.Executions() ensures |TokensOf(n, y)| == n.Executions()[y].attempts <= MAX_ATTEMPTS {
      assert y in s.Executions() && |TokensOf(s, y)| == s.Executions()[y].attempts <= MAX_ATTEMPTS;
      OneMoreToken(s, n, x, token, y);
    }
  }

  lemma OneMoreToken(s: Station, n: Station, x: ExecutionId, token: Token, y: ExecutionId)
    requires token !in s.issued && n.issued == s.issued[token := x]
    ensures |TokensOf(n, y)| == |TokensOf(s, y)| + if y == x then 1 else 0
  {
    assert TokensOf(n, y) == TokensOf(s, y) + if y == x then {token} else {};
    assert token !in TokensOf(s, y);
  }

  lemma ServiceCounted(s: Station, call: Call, now: Time)
    requires StationOk(s)
    ensures Counted(s, WithDomain(s, Serve(s.domain, call, now).domain))
  {
    hide DomainOk, AiringOk, Serve, Lives, Remembers;
    ServeIsOrdinary(s.domain, call, now);
    var n := WithDomain(s, Serve(s.domain, call, now).domain);
    forall x | x in s.Executions() ensures x in n.Executions() && n.Executions()[x].attempts == s.Executions()[x].attempts {
      assert OwnRow(s.domain.executions[x], n.domain.executions[x]);
    }
    assert SameAttempts(s, n);
  }

  lemma EndedAirCounted(s: Station, x: ExecutionId, clean: bool, endedAt: Time, ms: int, now: Time)
    requires x in s.Executions()
    ensures var t := s.Executions()[x].token.GetOr(0);
            Counted(s, WithDomain(s, if clean then AirCompleted(s.domain, x, t, endedAt, Some(ms), now).domain
                                     else AirInterrupted(s.domain, x, t, endedAt, Some(ms), now).domain))
  {
    hide AirCompleted, AirInterrupted;
    var t := s.Executions()[x].token.GetOr(0);
    EndedAirRows(s.domain, x, t, endedAt, ms, now);
    assert SameAttempts(s, WithDomain(s, AirCompleted(s.domain, x, t, endedAt, Some(ms), now).domain));
    assert SameAttempts(s, WithDomain(s, AirInterrupted(s.domain, x, t, endedAt, Some(ms), now).domain));
  }

  lemma EndedAirRows(d: Domain, x: ExecutionId, t: Token, endedAt: Time, ms: int, now: Time)
    requires x in d.executions
    ensures var c := AirCompleted(d, x, t, endedAt, Some(ms), now).domain;
            x in c.executions && c.executions == d.executions[x := c.executions[x]] &&
            c.executions[x].attempts == d.executions[x].attempts
    ensures var c := AirInterrupted(d, x, t, endedAt, Some(ms), now).domain;
            x in c.executions && c.executions == d.executions[x := c.executions[x]] &&
            c.executions[x].attempts == d.executions[x].attempts
  {
    hide Participants, CadencedRow, EvidenceProblem;
  }

  lemma NextCounted(s: Station, step: Step, now: Time)
    requires StationOk(s) && Enabled(s, step)
    ensures Counted(s, Next(s, step, now))
  {
    hide StationOk, Counted, Evidence, AirCompleted, AirInterrupted;
    if step.Service? {
      ServiceCounted(s, step.call, now);
    } else if EndsAiring(s, step) {
      SameRowsQuietly(s, s);
      if step.execution in s.Executions() {
        var e := s.Executions()[step.execution];
        if step.EvidenceEnded? {
          EndedAirCounted(s, step.execution, true, step.endedAt, step.ms, now);
          EndedAirCounted(s, step.execution, false, Later(step.endedAt, e.startedAt), step.ms, now);
        } else {
          EndedAirCounted(s, step.execution, false, Later(step.evidenceAt, e.startedAt), step.ms, now);
        }
      }
    } else {
      NextQuietly(s, step, now);
    }
  }

  lemma {:induction false} AttemptsAreCounted(s: Station, run: seq<Moment>)
    requires Initial(s)
    ensures AttemptsCounted(After(s, run))
  {
    if run == [] {
      hide StationOk;
      assert forall x :: x !in s.Executions();
    } else {
      var before, m := run[..|run| - 1], run[|run| - 1];
      AttemptsAreCounted(s, before);
      ReachableOk(s, before);
      hide Initial, StationOk, Next, AttemptsCounted, Counted;
      if Enabled(After(s, before), m.step) {
        NextCounted(After(s, before), m.step, m.now);
        CountedKeeps(After(s, before), After(s, run));
      }
    }
  }

  function ItemsOf(s: Station, x: ExecutionId): set<LogItemId> {
    set item | item in s.insertions && s.insertions[item].execution == x
  }

  /** A map that tells the elements of a set apart gives at least as many values. */
  lemma {:induction false} Pigeonhole(s: Station, items: set<LogItemId>, tokens: set<Token>)
    requires forall i :: i in items ==> i in s.insertions && s.insertions[i].token in tokens
    requires forall a, b :: a in items && b in items && SameToken(s, a, b) ==> a == b
    ensures |items| <= |tokens|
  {
    if items != {} {
      var i :| i in items;
      var t := s.insertions[i].token;
      forall a | a in items - {i} ensures s.insertions[a].token in tokens - {t} {
        if s.insertions[a].token == t {
          assert SameToken(s, a, i);
        }
      }
      Pigeonhole(s, items - {i}, tokens - {t});
    }
  }

  /** An execution's attempt count is exactly the number of tokens ever issued for it, and it is spliced into
      the log at most MAX_ATTEMPTS times, however often its commands are lost or repeated. */
  lemma AttemptsAreBounded(s: Station, run: seq<Moment>, x: ExecutionId)
    requires Initial(s) && x in After(s, run).Executions()
    ensures var n := After(s, run);
            && n.Executions()[x].attempts == |TokensOf(n, x)| <= MAX_ATTEMPTS
            && |ItemsOf(n, x)| <= n.Executions()[x].attempts
  {
    var n := After(s, run);
    ReachableOk(s, run);
    AttemptsAreCounted(s, run);
    hide Initial, After, DomainOk, IssuedOk, PublicationsOk, DecksOk, AirOk;
    Pigeonhole(n, ItemsOf(n, x), TokensOf(n, x));
  }

  // -- cadence ------------------------------------------------------------------------------------------------------

  predicate StaysActive(s: Station, n: Station, id: MessageId) {
    && id in s.domain.messages && s.domain.messages[id].state.Active?
    && id in n.domain.messages && n.domain.messages[id].state.Active?
  }

  /** Only the end of an airing that contained it moves the due time of a message that stays ACTIVE: one frozen
      interval past the end evidence. Suppression, failure and resending never do. */
  lemma DueMovesOnlyWithAir(s: Station, m: Moment, id: MessageId) returns (x: ExecutionId)
    requires StationOk(s) && StaysActive(s, Take(s, m), id)
    requires Take(s, m).domain.messages[id].nextDueAt != s.domain.messages[id].nextDueAt
    ensures x in s.Executions() && s.Executions()[x].state.Started?
    ensures var n := Take(s, m);
            && x in n.Executions() && (n.Executions()[x].state.Completed? || n.Executions()[x].state.Interrupted?)
            && Names(s.Executions()[x], id) && n.Executions()[x].endedAt.Some? && s.domain.messages[id].interval.Some?
            && n.domain.messages[id].nextDueAt ==
                 Some(n.Executions()[x].endedAt.value + s.domain.messages[id].interval.value * SECOND)
  {
    hide AiringOk, DomainOk, Next;
    if m.step.Service? {
      ServiceKeepsDue(s, m, id);
    } else if !EndsAiring(s, m.step) {
      NextQuietly(s, m.step, m.now);
    }
    x := m.step.execution;
    IntervalIsFrozen(s.domain, id);
    EndingWrites(s, m);
    var e := s.Executions()[x];
    var clean := m.step.EvidenceEnded? && m.step.clean;
    EndedMovesDue(s, x, clean, EndingAt(s, m), m.step.ms, m.now, id);
  }

  /** When an ending step dates the end of the airing. */
  function EndingAt(s: Station, m: Moment): Time
    requires EndsAiring(s, m.step) && m.step.execution in s.Executions()
  {
    var e := s.Executions()[m.step.execution];
    if m.step.BootSettled? then Later(m.step.evidenceAt, e.startedAt)
    else if m.step.clean then m.step.endedAt else Later(m.step.endedAt, e.startedAt)
  }

  lemma EndingWrites(s: Station, m: Moment)
    requires Enabled(s, m.step) && EndsAiring(s, m.step) && Take(s, m).domain != s.domain
    ensures var x := m.step.execution;
            && x in s.Executions() && s.Executions()[x].state.Started?
            && var t := s.Executions()[x].token.GetOr(0);
            && Take(s, m) == WithDomain(s,
                 if m.step.EvidenceEnded? && m.step.clean
                 then AirCompleted(s.domain, x, t, EndingAt(s, m), Some(m.step.ms), m.now).domain
                 else AirInterrupted(s.domain, x, t, EndingAt(s, m), Some(m.step.ms), m.now).domain)
  {
    hide AirCompleted, AirInterrupted, Evidence, Serve, Redispatch, Suppress;
  }

  lemma IntervalIsFrozen(d: Domain, id: MessageId)
    requires DomainOk(d) && id in d.messages && d.messages[id].state.Active?
    ensures d.messages[id].interval.Some?
  {
    hide ExecutionsOk, ContentOk, CadenceOk, HistoryOk, OwnedOk;
  }

  lemma ServiceKeepsDue(s: Station, m: Moment, id: MessageId)
    requires StationOk(s) && m.step.Service? && StaysActive(s, Take(s, m), id)
    ensures Take(s, m).domain.messages[id].nextDueAt == s.domain.messages[id].nextDueAt
  {
    hide DomainOk, AiringOk, Serve, Serviced, Remembers;
    ServeIsOrdinary(s.domain, m.step.call, m.now);
    assert Onward(s.domain.messages[id], Serve(s.domain, m.step.call, m.now).domain.messages[id]);
  }

  lemma EndedMovesDue(s: Station, x: ExecutionId, clean: bool, endedAt: Time, ms: int, now: Time, id: MessageId)
    requires x in s.Executions() && s.Executions()[x].state.Started?
    requires id in s.domain.messages && s.domain.messages[id].interval.Some?
    requires var t := s.Executions()[x].token.GetOr(0);
             var n := WithDomain(s, if clean then AirCompleted(s.domain, x, t, endedAt, Some(ms), now).domain
                                    else AirInterrupted(s.domain, x, t, endedAt, Some(ms), now).domain);
             id in n.domain.messages && n.domain.messages[id].nextDueAt != s.domain.messages[id].nextDueAt
    ensures var t := s.Executions()[x].token.GetOr(0);
            var n := WithDomain(s, if clean then AirCompleted(s.domain, x, t, endedAt, Some(ms), now).domain
                                   else AirInterrupted(s.domain, x, t, endedAt, Some(ms), now).domain);
            && x in n.Executions() && (n.Executions()[x].state.Completed? || n.Executions()[x].state.Interrupted?)
            && Names(s.Executions()[x], id) && n.Executions()[x].endedAt == Some(endedAt)
            && n.domain.messages[id].nextDueAt == Some(endedAt + s.domain.messages[id].interval.value * SECOND)
  {
  }
}
