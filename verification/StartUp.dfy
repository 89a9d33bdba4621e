/** Engine start-up among everything else (active_messages/playout.py, engine_started): one execution after another is
    projected and settled, each in its own transaction, while producers, operators and the worker go on. */
module StartUp {
  import opened Common
  import opened Composition
  import opened Services
  import opened DomainInvariants
  import opened ServiceSteps
  import opened Playout
  import opened PlayoutInvariants
  import opened PlayoutSteps
  import opened Runs
  import opened Airings

  // -- what start-up leaves -----------------------------------------------------------------------------------------

  /** What start-up leaves of an execution: this process's own; or not on air, and either no longer held or with no
      current LogItem, so that nothing an earlier process queued can open a deck for it. (An unfinished attempt can keep
      its LogItem only where no publication is recorded, which an inserted attempt never lacks.) */
  ghost predicate SettledRow(s: Station, x: ExecutionId) {
    && x in s.Executions()
    && var e := s.Executions()[x];
    && (e.engine == Some(s.engine) ||
        (!e.state.Started? && (EngineHeld(e.state) ==> forall i :: Current(s, i) ==> s.insertions[i].execution != x)))
  }

  lemma SameRowSettled(s: Station, n: Station, x: ExecutionId)
    requires SettledRow(s, x) && x in n.Executions() && n.Executions()[x] == s.Executions()[x]
    requires n.insertions == s.insertions && n.engine == s.engine
    ensures SettledRow(n, x)
  {
    forall i | Current(n, i) && n.insertions[i].execution == x ensures Current(s, i) {
    }
  }

  lemma InsertionsHold(s: Station)
    requires StationOk(s)
    ensures InsertionsOk(s)
  {
  }

  lemma FinishBoot(s: Station)
    requires StationOk(s) && s.phase.Booting?
    ensures StationOk(s.(phase := Idle))
  {
    var n := s.(phase := Idle);
    assert InsertionsOk(n) && IssuedOk(n) && PublicationsOk(n) by { hide DecksOk, AirOk; SameTables(s, n); }
    hide InsertionsOk, IssuedOk, PublicationsOk;
    assert DecksOk(n) by { hide AirOk; SameDecks(s, n); }
    hide DecksOk;
    SameAir(s, n);
  }

  lemma BootSyncWrites(s: Station, x: ExecutionId, claimedAt: Option<Time>)
    requires s.phase.Booting?
    ensures var n := BootSync(s, x, claimedAt);
            && n == s.(domain := n.domain, phase := Booting(s.phase.synced + {x}))
            && n.Executions().Keys == s.Executions().Keys
            && (forall y :: y in s.Executions() && y != x ==> n.Executions()[y] == s.Executions()[y])
  {
    hide Evidence, AirStarted;
    if x in s.Executions() && Evidence(s, x).Some? {
      AirStartedWrites(s.domain, x, s.Executions()[x].token.GetOr(0), Evidence(s, x).value, claimedAt);
    }
  }

  lemma AirStartedWrites(d: Domain, x: ExecutionId, token: Token, startedAt: Time, claimedAt: Option<Time>)
    requires x in d.executions
    ensures var n := AirStarted(d, x, token, startedAt, claimedAt).domain;
            x in n.executions && n.executions == d.executions[x := n.executions[x]]
  {
  }

  lemma StartedNamed(s: Station, x: ExecutionId)
    requires StationOk(s) && x in s.Executions() && s.Executions()[x].state.Started?
    ensures s.Executions()[x].token.Some? && s.Executions()[x].startedAt.Some?
  {
    hide DomainOk, InsertionsOk, IssuedOk, PublicationsOk, DecksOk;
    var item := StartedFacts(s, x);
  }

  /** What settling one execution writes. */
  lemma BootSettleWrites(s: Station, x: ExecutionId, token: Token, evidenceAt: Time, ms: nat, now: Time)
    requires StationOk(s) && s.phase.Booting? && x in s.phase.synced && token !in s.issued
    ensures var n := BootSettle(s, x, token, evidenceAt, ms, now);
            && n == s.(domain := n.domain, issued := n.issued, commands := n.commands)
            && n.Executions().Keys == s.Executions().Keys && n.issued.Keys <= s.issued.Keys + {token}
            && (forall y :: y in s.Executions() && y != x ==> n.Executions()[y] == s.Executions()[y])
            && (x in n.Executions() ==> SettledRow(n, x))
  {
    InsertionsHold(s);
    hide BootSettle, InsertionsOk;
    if x in s.Executions() && s.Executions()[x].state.Started? {
      StartedNamed(s, x);
      hide StationOk;
      OnAirAtBoot(s, x, token, evidenceAt, ms, now);
    } else {
      hide StationOk;
      HeldAtBoot(s, x, token, evidenceAt, ms, now);
    }
  }

  lemma OnAirAtBoot(s: Station, x: ExecutionId, token: Token, evidenceAt: Time, ms: nat, now: Time)
    requires s.phase.Booting? && x in s.phase.synced && x in s.Executions() && s.Executions()[x].state.Started?
    requires s.Executions()[x].token.Some? && s.Executions()[x].startedAt.Some?
    ensures var n := BootSettle(s, x, token, evidenceAt, ms, now);
            && n == s.(domain := n.domain)
            && n.Executions().Keys == s.Executions().Keys
            && (forall y :: y in s.Executions() && y != x ==> n.Executions()[y] == s.Executions()[y])
            && SettledRow(n, x)
  {
    var e := s.Executions()[x];
    hide AirInterrupted;
    InterruptedWrites(s.domain, x, e.token.value, Later(evidenceAt, e.startedAt), ms, now);
  }

  lemma HeldAtBoot(s: Station, x: ExecutionId, token: Token, evidenceAt: Time, ms: nat, now: Time)
    requires InsertionsOk(s) && s.phase.Booting? && x in s.phase.synced && token !in s.issued
    requires x in s.Executions() ==> !s.Executions()[x].state.Started?
    ensures var n := BootSettle(s, x, token, evidenceAt, ms, now);
            && n == s.(domain := n.domain, issued := n.issued, commands := n.commands)
            && n.Executions().Keys == s.Executions().Keys && n.issued.Keys <= s.issued.Keys + {token}
            && (forall y :: y in s.Executions() && y != x ==> n.Executions()[y] == s.Executions()[y])
            && (x in n.Executions() ==> SettledRow(n, x))
  {
    hide Redispatch, StaleNow, Suppress, InsertionsOk;
    if x in s.Executions() {
      SuppressRow(s, x, now);
      if x !in s.publications {
        UnpublishedIsFresh(s, x);
      } else if EngineHeld(s.Executions()[x].state) {
        RotatedIsFresh(s, x, token, now);
      }
    }
  }

  lemma UnpublishedIsFresh(s: Station, x: ExecutionId)
    requires InsertionsOk(s) && x !in s.publications
    ensures forall i :: Current(s, i) ==> s.insertions[i].execution != x
  {
  }

  lemma InterruptedWrites(d: Domain, x: ExecutionId, token: Token, endedAt: Time, ms: nat, now: Time)
    requires x in d.executions && d.executions[x].state.Started? && d.executions[x].token == Some(token)
    requires d.executions[x].startedAt.Some? && endedAt >= d.executions[x].startedAt.value
    ensures var n := AirInterrupted(d, x, token, endedAt, Some(ms), now).domain;
            && x in n.executions && n.executions == d.executions[x := n.executions[x]] && n.executions[x].state.Interrupted?
  {
    hide Participants, CadencedRow;
  }

  lemma RotatedIsFresh(s: Station, x: ExecutionId, token: Token, now: Time)
    requires InsertionsOk(s) && x in s.Executions() && x in s.publications && token !in s.issued
    requires InHand(s.Executions()[x].state)
    ensures var n := Redispatch(s, x, token, now);
            && n == s.(domain := n.domain, issued := n.issued, commands := n.commands)
            && x in n.Executions() && n.Executions() == s.Executions()[x := n.Executions()[x]]
            && n.issued.Keys <= s.issued.Keys + {token}
            && !n.Executions()[x].state.Started?
            && (EngineHeld(n.Executions()[x].state) ==> forall i :: Current(n, i) ==> n.insertions[i].execution != x)
  {
    hide InsertionsOk;
    RedispatchOnly(s, x, token, now);
    hide Redispatch;
    var n := Redispatch(s, x, token, now);
    if EngineHeld(n.Executions()[x].state) {
      FreshTokenIsUninserted(s, n, x, token);
    }
  }

  lemma RedispatchOnly(s: Station, x: ExecutionId, token: Token, now: Time)
    requires x in s.Executions() && x in s.publications && InHand(s.Executions()[x].state)
    ensures var n := Redispatch(s, x, token, now);
            && n == s.(domain := n.domain, issued := n.issued, commands := n.commands)
            && x in n.Executions() && n.Executions() == s.Executions()[x := n.Executions()[x]]
            && n.issued.Keys <= s.issued.Keys + {token}
            && (n.Executions()[x].state.Failed? ||
                (n.Executions()[x].state == s.Executions()[x].state && n.Executions()[x].token == Some(token)))
  {
    hide WithRow;
    var o := s.Executions()[x];
    WithRowOnly(s, x, Finished(o, Failed, if Insertable(s.publications[x]) then DispatchExhausted else PublicationUnavailable, now));
    WithRowOnly(s, x, Rotated(o, token, now));
  }

  lemma WithRowOnly(s: Station, x: ExecutionId, e: Execution)
    ensures var n := WithRow(s, x, e);
            && n == s.(domain := n.domain) && x in n.Executions() && n.Executions()[x] == e
            && n.Executions() == s.Executions()[x := e]
  {
  }

  lemma FreshTokenIsUninserted(s: Station, n: Station, x: ExecutionId, token: Token)
    requires InsertionsOk(s) && token !in s.issued && n.insertions == s.insertions
    requires x in n.Executions() && n.Executions()[x].token == Some(token)
    ensures forall i :: Current(n, i) ==> n.insertions[i].execution != x
  {
    forall i | Current(n, i) ensures n.insertions[i].execution != x {
      assert s.insertions[i].token in s.issued;
    }
  }

  // -- it stays so --------------------------------------------------------------------------------------------------

  /** A step that writes no execution row and splices nothing. */
  lemma OtherTablesSettled(s: Station, n: Station, x: ExecutionId)
    requires SettledRow(s, x) && n.Executions() == s.Executions() && n.insertions == s.insertions && n.engine == s.engine
    ensures SettledRow(n, x)
  {
    SameRowSettled(s, n, x);
  }

  lemma RedispatchSettled(s: Station, x: ExecutionId, y: ExecutionId, token: Token, now: Time)
    requires InsertionsOk(s) && SettledRow(s, x) && y in s.Executions() && y in s.publications && token !in s.issued
    requires InHand(s.Executions()[y].state)
    ensures SettledRow(Redispatch(s, y, token, now), x)
  {
    hide Redispatch, InsertionsOk;
    RotatedIsFresh(s, y, token, now);
    if x != y {
      SameRowSettled(s, Redispatch(s, y, token, now), x);
    }
  }

  lemma SuppressSettled(s: Station, x: ExecutionId, y: ExecutionId, now: Time)
    requires SettledRow(s, x) && y in s.Executions()
    ensures SettledRow(Suppress(s, y, now), x)
  {
    if x != y {
      SameRowSettled(s, Suppress(s, y, now), x);
    }
  }

  lemma ServiceSettled(s: Station, x: ExecutionId, d: Domain)
    requires SettledRow(s, x) && Serviced(s.domain, d)
    ensures SettledRow(WithDomain(s, d), x)
  {
    assert OwnRow(s.domain.executions[x], d.executions[x]);
    if d.executions[x] == s.domain.executions[x] {
      SameRowSettled(s, WithDomain(s, d), x);
    }
  }

  lemma DeliverSettled(s: Station, x: ExecutionId, c: Command, item: LogItemId, category: bool, now: Time)
    requires SettledRow(s, x) && item !in s.insertions
    ensures SettledRow(Deliver(s, c, item, category, now), x)
  {
    var n := Deliver(s, c, item, category, now);
    if Admits(s, c, category) && x != c.execution {
      hide Admits;
      assert n.Executions()[x] == s.Executions()[x];
      forall i | Current(n, i) && n.insertions[i].execution == x ensures Current(s, i) {
      }
    }
  }

  lemma AuthorizeSettled(s: Station, x: ExecutionId, item: LogItemId, named: bool, now: Time)
    requires SettledRow(s, x)
    ensures SettledRow(AuthorizeOpen(s, item, named, now), x)
  {
    var n := AuthorizeOpen(s, item, named, now);
    AuthorizeRow(s, item, named, now);
    hide AuthorizeOpen, Suppress;
    if n.Executions() == s.Executions() {
      OtherTablesSettled(s, n, x);
    } else {
      var y := s.insertions[item].execution;
      SuppressSettled(s, x, y, now);
      if x != y {
        SameRowSettled(s, n, x);
      }
    }
  }

  lemma AuthorizeRow(s: Station, item: LogItemId, named: bool, now: Time)
    ensures var n := AuthorizeOpen(s, item, named, now);
            && n.insertions == s.insertions && n.engine == s.engine
            && (|| n.Executions() == s.Executions()
                || (&& item in s.insertions && s.insertions[item].execution in s.Executions()
                    && var y := s.insertions[item].execution;
                    && y in n.Executions() && n.Executions() == s.Executions()[y := n.Executions()[y]]
                    && (n == Suppress(s, y, now) || n.Executions()[y].engine == Some(s.engine))))
  {
    hide Judge, Suppress, WithRow;
    if item in s.insertions && s.insertions[item].execution in s.Executions() {
      var y := s.insertions[item].execution;
      SuppressRow(s, y, now);
      WithRowOnly(s, y, ClaimedRow(s.Executions()[y], s.engine, now));
      assert AuthorizeOpen(s, item, named, now).Executions() != s.Executions() ==> item in s.insertions;
    }
    JudgedIsCurrent(s, item, named);
  }

  lemma JudgedIsCurrent(s: Station, item: LogItemId, named: bool)
    ensures Judge(s, item, named) ==> Current(s, item)
  {
    hide GateOpen;
  }

  lemma ReportSettled(s: Station, x: ExecutionId, item: LogItemId, token: Token, now: Time)
    requires InsertionsOk(s) && SettledRow(s, x) && token !in s.issued
    ensures SettledRow(ReportNotAired(s, item, token, now), x)
  {
    hide Redispatch, Suppress, StaleNow, InsertionsOk, SettledRow;
    if ReportNotAired(s, item, token, now) != s {
      var y := s.insertions[item].execution;
      SuppressSettled(s, x, y, now);
      if y in s.publications {
        RedispatchSettled(s, x, y, token, now);
      }
    }
  }

  lemma HeldSettled(s: Station, x: ExecutionId, y: ExecutionId, token: Token, now: Time)
    requires InsertionsOk(s) && SettledRow(s, x) && token !in s.issued
    ensures SettledRow(HeldStep(s, y, token, now), x)
  {
    hide Redispatch, Suppress, StaleNow, InsertionsOk, SettledRow, InsertionOf;
    if HeldStep(s, y, token, now) != s {
      SuppressSettled(s, x, y, now);
      if y in s.publications {
        RedispatchSettled(s, x, y, token, now);
      }
    }
  }

  lemma DispatchSettled(s: Station, x: ExecutionId, y: ExecutionId, token: Token, now: Time)
    requires InsertionsOk(s) && SettledRow(s, x) && token !in s.issued
    ensures SettledRow(Dispatch(s, y, token, now), x)
  {
    hide Redispatch, StaleNow, InsertionsOk, SettledRow;
    if Dispatch(s, y, token, now) != s {
      RedispatchSettled(s, x, y, token, now);
    }
  }

  /** Air evidence for a settled row can only be of this process. */
  lemma SyncSettled(s: Station, x: ExecutionId, y: ExecutionId, claimedAt: Option<Time>)
    requires SettledRow(s, x)
    ensures SettledRow(SyncStarted(s, y, claimedAt), x)
    ensures SyncStarted(s, y, claimedAt).phase == s.phase
  {
    hide InsertionOf;
    var n := SyncStarted(s, y, claimedAt);
    if n != s {
      if x == y {
        var item := InsertionOf(s, x).value;
        assert Current(s, item);
        assert n.Executions()[x].engine == s.Executions()[x].engine;
      } else {
        SameRowSettled(s, n, x);
      }
    }
  }

  lemma SyncEndedSettled(s: Station, x: ExecutionId, y: ExecutionId, clean: bool, endedAt: Time, ms: int, now: Time)
    requires SettledRow(s, x)
    ensures SettledRow(SyncEnded(s, y, clean, endedAt, ms, now), x)
  {
    hide Evidence, AirCompleted, AirInterrupted;
    var n := SyncEnded(s, y, clean, endedAt, ms, now);
    if n != s {
      var e := s.Executions()[y];
      EndedRow(s.domain, y, e.token.GetOr(0), clean, if clean then endedAt else Later(endedAt, e.startedAt), ms, now);
      if x != y {
        SameRowSettled(s, n, x);
      }
    }
  }

  lemma EndedRow(d: Domain, y: ExecutionId, token: Token, clean: bool, endedAt: Time, ms: int, now: Time)
    requires y in d.executions
    ensures var n := (if clean then AirCompleted(d, y, token, endedAt, Some(ms), now)
                      else AirInterrupted(d, y, token, endedAt, Some(ms), now)).domain;
            && y in n.executions && n.executions == d.executions[y := n.executions[y]]
            && n.executions[y].engine == d.executions[y].engine
  {
    hide Participants, CadencedRow;
  }

  lemma BootSyncSettled(s: Station, x: ExecutionId, y: ExecutionId, claimedAt: Option<Time>)
    requires SettledRow(s, x)
    ensures SettledRow(BootSync(s, y, claimedAt), x)
  {
    hide SyncStarted, SettledRow;
    if s.phase.Booting? {
      var m := SyncStarted(s, y, claimedAt);
      SyncSettled(s, x, y, claimedAt);
      OtherTablesSettled(m, m.(phase := Booting(s.phase.synced + {y})), x);
    }
  }

  lemma BootSettleSettled(s: Station, x: ExecutionId, y: ExecutionId, token: Token, evidenceAt: Time, ms: int, now: Time)
    requires InsertionsOk(s) && SettledRow(s, x) && token !in s.issued
    ensures SettledRow(BootSettle(s, y, token, evidenceAt, ms, now), x)
  {
    hide Redispatch, Suppress, AirInterrupted, StaleNow, InsertionsOk;
    var n := BootSettle(s, y, token, evidenceAt, ms, now);
    if n != s {
      var e := s.Executions()[y];
      if e.state.Started? {
        EndedRow(s.domain, y, e.token.GetOr(0), false, Later(evidenceAt, e.startedAt), ms, now);
        if x != y {
          SameRowSettled(s, n, x);
        }
      } else {
        SuppressSettled(s, x, y, now);
        if y in s.publications {
          RedispatchSettled(s, x, y, token, now);
        }
      }
    }
  }

  lemma PublicationFailsSettled(s: Station, x: ExecutionId, y: ExecutionId, code: FailureCode, now: Time)
    requires SettledRow(s, x)
    ensures SettledRow(PublicationFails(s, y, code, now), x)
  {
    if x != y && PublicationFails(s, y, code, now) != s {
      SameRowSettled(s, PublicationFails(s, y, code, now), x);
    }
  }

  lemma NextSettled(s: Station, step: Step, now: Time, x: ExecutionId)
    requires StationOk(s) && Enabled(s, step) && !step.Restarted? && SettledRow(s, x)
    ensures SettledRow(Next(s, step, now), x)
  {
    InsertionsHold(s);
    hide StationOk, SettledRow, InsertionsOk, Serve;
    if step.Service? {
      ServeSettled(s, step.call, now, x);
    } else {
      hide Next;
      if Aside(step) {
        RowsUntouched(s, step, now);
        OtherTablesSettled(s, Next(s, step, now), x);
      } else if ByEngine(step) {
        EngineSettled(s, step, now, x);
      } else {
        WorkerSettled(s, step, now, x);
      }
    }
  }

  lemma EngineSettled(s: Station, step: Step, now: Time, x: ExecutionId)
    requires InsertionsOk(s) && Enabled(s, step) && ByEngine(step) && SettledRow(s, x)
    ensures SettledRow(Next(s, step, now), x)
  {
    hide SettledRow, InsertionsOk, Deliver, AuthorizeOpen, ReportNotAired, BootSync, BootSettle;
    match step
    case Delivered(command, item, category) => DeliverSettled(s, x, command, item, category, now);
    case Authorized(item, named) => AuthorizeSettled(s, x, item, named, now);
    case NotAired(item, token) => ReportSettled(s, x, item, token, now);
    case BootSynced(y, claimedAt) => BootSyncSettled(s, x, y, claimedAt);
    case BootSettled(y, token, evidenceAt, ms) => BootSettleSettled(s, x, y, token, evidenceAt, ms, now);
  }

  lemma WorkerSettled(s: Station, step: Step, now: Time, x: ExecutionId)
    requires InsertionsOk(s) && Enabled(s, step) && SettledRow(s, x)
    requires !ByEngine(step) && !Aside(step) && !step.Service? && !step.Restarted?
    ensures SettledRow(Next(s, step, now), x)
  {
    hide SettledRow, InsertionsOk, PublicationFails, Dispatch, SyncStarted, SyncEnded, HeldStep;
    match step
    case PublicationFailed(y, code) => PublicationFailsSettled(s, x, y, code, now);
    case Dispatched(y, token) => DispatchSettled(s, x, y, token, now);
    case EvidenceStarted(y, claimedAt) => SyncSettled(s, x, y, claimedAt);
    case EvidenceEnded(y, clean, endedAt, ms) => SyncEndedSettled(s, x, y, clean, endedAt, ms, now);
    case HeldStepped(y, token) => HeldSettled(s, x, y, token, now);
  }

  lemma ServeSettled(s: Station, call: Call, now: Time, x: ExecutionId)
    requires StationOk(s) && SettledRow(s, x)
    ensures SettledRow(WithDomain(s, Serve(s.domain, call, now).domain), x)
  {
    hide DomainOk, AiringOk, Serve, SettledRow;
    ServeIsOrdinary(s.domain, call, now);
    hide Serviced, Lives, Remembers;
    ServiceSettled(s, x, Serve(s.domain, call, now).domain);
  }

  /** The steps that write no execution row. */
  predicate Aside(step: Step) {
    || step.Published? || step.TrackDeleted? || step.FileLost? || step.LogItemDeleted? || step.PlaybackClaimed?
    || step.DeckBuilt? || step.AirStarts? || step.Booted?
  }

  lemma RowsUntouched(s: Station, step: Step, now: Time)
    requires Enabled(s, step) && Aside(step)
    ensures var n := Next(s, step, now);
            n.Executions() == s.Executions() && n.insertions == s.insertions && n.engine == s.engine
  {
    hide PublicationFails, Dispatch, Deliver, AuthorizeOpen, ReportNotAired, SyncStarted, SyncEnded, BootSync, BootSettle,
         HeldStep, Serve;
  }

  lemma NewRowSettled(s: Station, step: Step, now: Time, x: ExecutionId)
    requires StationOk(s) && Enabled(s, step) && x !in s.Executions() && x in Next(s, step, now).Executions()
    ensures SettledRow(Next(s, step, now), x)
  {
    hide DomainOk, AiringOk, Serve;
    if step.Service? {
      ServeIsOrdinary(s.domain, step.call, now);
      hide Lives, Remembers;
    } else {
      hide Next;
      SameRows(s, step, now);
    }
  }

  /** The steps of the engine's own thread that may write an execution row. */
  predicate ByEngine(step: Step) {
    step.Delivered? || step.Authorized? || step.NotAired? || step.BootSynced? || step.BootSettled?
  }

  lemma SameRows(s: Station, step: Step, now: Time)
    requires Enabled(s, step) && !step.Service?
    ensures Next(s, step, now).Executions().Keys == s.Executions().Keys
  {
    hide Next;
    if Aside(step) {
      RowsUntouched(s, step, now);
    } else if ByEngine(step) {
      SameRowsByEngine(s, step, now);
    } else {
      SameRowsByWorker(s, step, now);
    }
  }

  lemma SameRowsByEngine(s: Station, step: Step, now: Time)
    requires Enabled(s, step) && ByEngine(step)
    ensures Next(s, step, now).Executions().Keys == s.Executions().Keys
  {
    hide Deliver, AuthorizeOpen, ReportNotAired, BootSync, BootSettle;
    match step
    case Delivered(command, item, category) => DeliverRows(s, command, item, category, now);
    case Authorized(item, named) => AuthorizeRow(s, item, named, now);
    case NotAired(item, token) => ReportRows(s, item, token, now);
    case BootSynced(y, claimedAt) => SyncRows(s, y, claimedAt);
    case BootSettled(y, token, evidenceAt, ms) => BootSettleRows(s, y, token, evidenceAt, ms, now);
  }

  lemma SameRowsByWorker(s: Station, step: Step, now: Time)
    requires Enabled(s, step) && !ByEngine(step) && !Aside(step) && !step.Service?
    ensures Next(s, step, now).Executions().Keys == s.Executions().Keys
  {
    hide PublicationFails, Dispatch, SyncStarted, SyncEnded, HeldStep;
    match step
    case PublicationFailed(y, code) => PublicationFailsRows(s, y, code, now);
    case Dispatched(y, token) => DispatchRows(s, y, token, now);
    case EvidenceStarted(y, claimedAt) => SyncRows(s, y, claimedAt);
    case EvidenceEnded(y, clean, endedAt, ms) => SyncEndedRows(s, y, clean, endedAt, ms, now);
    case HeldStepped(y, token) => HeldRows(s, y, token, now);
    case Restarted(_) => {}
  }

  lemma PublicationFailsRows(s: Station, y: ExecutionId, code: FailureCode, now: Time)
    ensures PublicationFails(s, y, code, now).Executions().Keys == s.Executions().Keys
  {
  }

  lemma RedispatchRows(s: Station, y: ExecutionId, token: Token, now: Time)
    requires y in s.Executions() && y in s.publications
    ensures Redispatch(s, y, token, now).Executions().Keys == s.Executions().Keys
  {
    hide WithRow;
    var e := s.Executions()[y];
    WithRowOnly(s, y, Finished(e, Failed, DispatchExhausted, now));
    WithRowOnly(s, y, Finished(e, Failed, PublicationUnavailable, now));
    WithRowOnly(s, y, Rotated(e, token, now));
  }

  lemma SuppressRow(s: Station, y: ExecutionId, now: Time)
    requires y in s.Executions()
    ensures var n := Suppress(s, y, now);
            && n == s.(domain := n.domain) && y in n.Executions() && n.Executions()[y].state.Suppressed?
            && n.Executions() == s.Executions()[y := n.Executions()[y]]
  {
    hide WithRow;
    WithRowOnly(s, y, Finished(s.Executions()[y], Suppressed, StaleGeneration, now));
  }

  lemma DispatchRows(s: Station, y: ExecutionId, token: Token, now: Time)
    ensures Dispatch(s, y, token, now).Executions().Keys == s.Executions().Keys
  {
    hide Redispatch, StaleNow;
    if Dispatch(s, y, token, now) != s {
      RedispatchRows(s, y, token, now);
    }
  }

  lemma DeliverRows(s: Station, c: Command, item: LogItemId, category: bool, now: Time)
    ensures Deliver(s, c, item, category, now).Executions().Keys == s.Executions().Keys
  {
    hide StaleNow, InsertedToken;
  }

  lemma ReportRows(s: Station, item: LogItemId, token: Token, now: Time)
    ensures ReportNotAired(s, item, token, now).Executions().Keys == s.Executions().Keys
  {
    hide Redispatch, StaleNow, Suppress;
    if ReportNotAired(s, item, token, now) != s {
      SuppressRow(s, s.insertions[item].execution, now);
      if s.insertions[item].execution in s.publications {
        RedispatchRows(s, s.insertions[item].execution, token, now);
      }
    }
  }

  lemma SyncRows(s: Station, y: ExecutionId, claimedAt: Option<Time>)
    ensures SyncStarted(s, y, claimedAt).Executions().Keys == s.Executions().Keys
    ensures BootSync(s, y, claimedAt).Executions().Keys == s.Executions().Keys
  {
    hide Evidence;
  }

  lemma SyncEndedRows(s: Station, y: ExecutionId, clean: bool, endedAt: Time, ms: int, now: Time)
    ensures SyncEnded(s, y, clean, endedAt, ms, now).Executions().Keys == s.Executions().Keys
  {
    hide Evidence, AirCompleted, AirInterrupted;
    if y in s.Executions() {
      var e := s.Executions()[y];
      EndedRow(s.domain, y, e.token.GetOr(0), clean, if clean then endedAt else Later(endedAt, e.startedAt), ms, now);
    }
  }

  lemma BootSettleRows(s: Station, y: ExecutionId, token: Token, evidenceAt: Time, ms: int, now: Time)
    ensures BootSettle(s, y, token, evidenceAt, ms, now).Executions().Keys == s.Executions().Keys
  {
    hide Redispatch, StaleNow, AirInterrupted, Suppress;
    if BootSettle(s, y, token, evidenceAt, ms, now) != s {
      var e := s.Executions()[y];
      SuppressRow(s, y, now);
      EndedRow(s.domain, y, e.token.GetOr(0), false, Later(evidenceAt, e.startedAt), ms, now);
      if y in s.publications {
        RedispatchRows(s, y, token, now);
      }
    }
  }

  lemma HeldRows(s: Station, y: ExecutionId, token: Token, now: Time)
    ensures HeldStep(s, y, token, now).Executions().Keys == s.Executions().Keys
  {
    hide Redispatch, StaleNow, InsertionOf, Suppress;
    if HeldStep(s, y, token, now) != s {
      SuppressRow(s, y, now);
      if y in s.publications {
        RedispatchRows(s, y, token, now);
      }
    }
  }

  // -- a whole start-up ---------------------------------------------------------------------------------------------

  lemma {:induction false} StaysOk(s: Station, run: seq<Moment>)
    requires StationOk(s)
    ensures StationOk(After(s, run))
  {
    hide StationOk, Take;
    if run != [] {
      StaysOk(s, run[..|run| - 1]);
      TakeKeeps(After(s, run[..|run| - 1]), run[|run| - 1]);
    }
  }

  predicate NoRestart(run: seq<Moment>) {
    forall i :: 0 <= i < |run| ==> !run[i].step.Restarted?
  }

  /** What start-up looks at: held by an engine, or on air. */
  predicate Taken(e: Execution) {
    EngineHeld(e.state) || e.state.Started?
  }

  /** Settled, or not there yet. */
  ghost predicate SettledIfThere(s: Station, x: ExecutionId) {
    x in s.Executions() ==> SettledRow(s, x)
  }

  lemma TakeSettled(s: Station, m: Moment, x: ExecutionId)
    requires StationOk(s) && !m.step.Restarted? && SettledIfThere(s, x)
    ensures SettledIfThere(Take(s, m), x)
  {
    hide StationOk, SettledRow, Next, Enabled;
    if Enabled(s, m.step) {
      if x in s.Executions() {
        NextSettled(s, m.step, m.now, x);
      } else if x in Next(s, m.step, m.now).Executions() {
        NewRowSettled(s, m.step, m.now, x);
      }
    }
  }

  lemma {:induction false} RunSettled(s: Station, run: seq<Moment>, k: nat, x: ExecutionId)
    requires StationOk(s) && NoRestart(run) && k <= |run| && SettledIfThere(After(s, run[..k]), x)
    ensures SettledIfThere(After(s, run), x)
  {
    hide StationOk, SettledIfThere, Take;
    if k == |run| {
      assert run[..k] == run;
    } else {
      var before := run[..|run| - 1];
      assert before[..k] == run[..k];
      RunSettled(s, before, k, x);
      StaysOk(s, before);
      TakeSettled(After(s, before), run[|run| - 1], x);
    }
  }

  /** The execution's turn: start-up settles it at this moment, with its evidence projected. */
  ghost predicate TurnAt(s: Station, run: seq<Moment>, k: nat, x: ExecutionId)
    requires k < |run|
  {
    var m, step := After(s, run[..k]), run[k].step;
    && step.BootSettled? && step.execution == x && step.ms >= 0
    && Enabled(m, step) && m.phase.Booting? && x in m.phase.synced
  }

  ghost predicate Treated(s: Station, run: seq<Moment>, x: ExecutionId) {
    exists k :: 0 <= k < |run| && TurnAt(s, run, k, x)
  }

  lemma TurnSettles(s: Station, run: seq<Moment>, k: nat, x: ExecutionId)
    requires StationOk(s) && k < |run| && TurnAt(s, run, k, x)
    ensures SettledIfThere(After(s, run[..k + 1]), x)
  {
    AfterOne(s, run, k);
    StaysOk(s, run[..k]);
    hide StationOk, After;
    TurnTaken(After(s, run[..k]), run[k], x);
  }

  lemma TurnTaken(m: Station, moment: Moment, x: ExecutionId)
    requires StationOk(m) && m.phase.Booting? && x in m.phase.synced && Enabled(m, moment.step)
    requires moment.step.BootSettled? && moment.step.execution == x && moment.step.ms >= 0
    ensures SettledIfThere(Take(m, moment), x)
  {
    hide StationOk, BootSettle, SettledRow;
    BootSettleWrites(m, x, moment.step.token, moment.step.evidenceAt, moment.step.ms, moment.now);
  }

  lemma AfterOne(s: Station, run: seq<Moment>, k: nat)
    requires k < |run|
    ensures After(s, run[..k + 1]) == Take(After(s, run[..k]), run[k])
  {
    assert run[..k + 1][..k] == run[..k];
    hide Take;
  }

  /** A whole start-up, with any steps of anyone else between its transactions (but no further restart): once every row
      that was held or on air at its beginning has had its turn, nothing an earlier process had on air is said to be, no
      LogItem spliced for an earlier process is current for a held row, and deck-open authority can be given only for an
      execution this process itself accepted. */
  lemma StartUpSettles(s: Station, run: seq<Moment>)
    requires StationOk(s) && NoRestart(run)
    requires forall x :: x in s.Executions() && Taken(s.Executions()[x]) ==> Treated(s, run, x)
    ensures var n := After(s, run);
            && (forall x :: x in n.Executions() ==> SettledRow(n, x))
            && (forall item, named :: Judge(n, item, named) ==> RowOf(n, item).engine == Some(n.engine))
  {
    var n := After(s, run);
    hide StationOk, SettledRow, After, TurnAt;
    forall x | x in n.Executions() ensures SettledRow(n, x) {
      if Treated(s, run, x) {
        var k :| 0 <= k < |run| && TurnAt(s, run, k, x);
        TurnSettles(s, run, k, x);
        RunSettled(s, run, k + 1, x);
      } else {
        FreeRowSettled(s, x);
        StartsFrom(s, run);
        RunSettled(s, run, 0, x);
      }
    }
    forall item, named | Judge(n, item, named) ensures RowOf(n, item).engine == Some(n.engine) {
      JudgedIsOwn(n, item, named);
    }
  }

  lemma StartsFrom(s: Station, run: seq<Moment>)
    ensures After(s, run[..0]) == s
  {
  }

  lemma FreeRowSettled(s: Station, x: ExecutionId)
    requires x in s.Executions() ==> !Taken(s.Executions()[x])
    ensures SettledIfThere(s, x)
  {
  }

  lemma JudgedIsOwn(n: Station, item: LogItemId, named: bool)
    requires forall x :: x in n.Executions() ==> SettledRow(n, x)
    requires Judge(n, item, named)
    ensures RowOf(n, item).engine == Some(n.engine)
  {
    assert SettledRow(n, n.insertions[item].execution);
  }
}
