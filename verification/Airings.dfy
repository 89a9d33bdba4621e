/** What the station guarantees over a whole run: one airing per execution, one LogItem on the decks of a
    process, one entry into STARTED, what exactly a claim plays, and answers that never change. */
module Airings {
  import opened Common
  import opened Ordering
  import opened Composition
  import opened Services
  import opened DomainInvariants
  import opened ServiceSteps
  import opened Playout
  import opened PlayoutInvariants
  import opened PlayoutSteps
  import opened Runs

  // -- history ---------------------------------------------------------------------------------------------------

  predicate Ended(state: ExecutionState) {
    !Unfinished(state)
  }

  /** What an execution row never loses: what it froze, its attempts, its start, and its end. */
  predicate RowHistory(o: Execution, e: Execution) {
    && e.snapshot == o.snapshot && e.digest == o.digest && e.generation == o.generation && e.reason == o.reason
    && e.createdAt == o.createdAt && e.attempts >= o.attempts
    && (Ended(o.state) ==> e == o)
    && (WasStarted(o.state) ==> WasStarted(e.state) && e.token == o.token && e.startedAt == o.startedAt)
  }

  ghost predicate RowsRemember(d: Domain, n: Domain) {
    forall x :: x in d.executions ==> x in n.executions && RowHistory(d.executions[x], n.executions[x])
  }

  ghost predicate AnswersRemembered(d: Domain, n: Domain) {
    && (forall t :: t in d.requests ==> t in n.requests && n.requests[t] == d.requests[t])
    && (forall x :: x in d.reconciled ==> x in n.reconciled && n.reconciled[x] == d.reconciled[x])
  }

  predicate EvidenceRemembered(s: Station, n: Station) {
    && (forall i :: i in s.plays ==> i in n.plays && n.plays[i] == s.plays[i])
    && (forall i :: i in s.insertions ==> i in n.insertions && n.insertions[i] == s.insertions[i])
    && s.decks <= n.decks
  }

  /** Nothing recorded is ever lost or changed. */
  ghost predicate Remembered(s: Station, n: Station) {
    RowsRemember(s.domain, n.domain) && AnswersRemembered(s.domain, n.domain) && EvidenceRemembered(s, n)
  }

  lemma RememberedTwice(a: Station, b: Station, c: Station)
    requires Remembered(a, b) && Remembered(b, c)
    ensures Remembered(a, c)
  {
    assert AnswersRemembered(a.domain, c.domain) by { hide RowsRemember, EvidenceRemembered; }
    assert EvidenceRemembered(a, c) by { hide RowsRemember, AnswersRemembered; }
    hide AnswersRemembered, EvidenceRemembered;
    forall x | x in a.domain.executions ensures x in c.domain.executions && RowHistory(a.domain.executions[x], c.domain.executions[x]) {
      assert RowHistory(a.domain.executions[x], b.domain.executions[x]);
      assert RowHistory(b.domain.executions[x], c.domain.executions[x]);
    }
  }

  lemma SameRemembers(s: Station)
    ensures Remembered(s, s)
  {
  }

  lemma OrdinaryRemembers(s: Station, d: Domain)
    requires Ordinary(s.domain, d)
    ensures Remembered(s, WithDomain(s, d))
  {
    hide Lives;
    assert AnswersRemembered(s.domain, d) by { hide Serviced; }
    hide Remembers;
    forall x | x in s.domain.executions ensures x in d.executions && RowHistory(s.domain.executions[x], d.executions[x]) {
      assert OwnRow(s.domain.executions[x], d.executions[x]);
    }
  }

  /** A step that writes one execution row of the station, and may add to the other tables. */
  lemma RowRemembers(s: Station, n: Station, x: ExecutionId)
    requires x in s.Executions() && x in n.Executions()
    requires n.domain == s.domain.(executions := s.domain.executions[x := n.domain.executions[x]])
    requires RowHistory(s.Executions()[x], n.Executions()[x]) && EvidenceRemembered(s, n)
    ensures Remembered(s, n)
  {
    hide EvidenceRemembered;
  }

  lemma RedispatchRemembers(s: Station, x: ExecutionId, token: Token, now: Time)
    requires x in s.Executions() && x in s.publications && InHand(s.Executions()[x].state)
    ensures Remembered(s, Redispatch(s, x, token, now))
  {
    hide Remembered, Redispatch, RowHistory;
    RedispatchWrites(s, x, token, now);
    RowRemembers(s, Redispatch(s, x, token, now), x);
  }

  lemma RedispatchWrites(s: Station, x: ExecutionId, token: Token, now: Time)
    requires x in s.Executions() && x in s.publications && InHand(s.Executions()[x].state)
    ensures var n := Redispatch(s, x, token, now);
            && x in n.Executions() && RowHistory(s.Executions()[x], n.Executions()[x])
            && n.domain == s.domain.(executions := s.domain.executions[x := n.domain.executions[x]])
            && n.insertions == s.insertions && n.plays == s.plays && n.decks == s.decks
            && (n.Executions()[x].state == s.Executions()[x].state || n.Executions()[x].state.Failed?)
  {
    hide WithRow;
    var o, n := s.Executions()[x], Redispatch(s, x, token, now);
    WithRowWrites(s, x, Finished(o, Failed, PublicationUnavailable, now));
    WithRowWrites(s, x, Finished(o, Failed, DispatchExhausted, now));
    WithRowWrites(s, x, Rotated(o, token, now));
    if !Insertable(s.publications[x]) {
      assert n == WithRow(s, x, Finished(o, Failed, PublicationUnavailable, now));
    } else if o.attempts >= MAX_ATTEMPTS {
      assert n == WithRow(s, x, Finished(o, Failed, DispatchExhausted, now));
    } else {
      assert n.domain == WithRow(s, x, Rotated(o, token, now)).domain;
    }
  }

  lemma WithRowWrites(s: Station, x: ExecutionId, e: Execution)
    ensures var n := WithRow(s, x, e);
            && x in n.domain.executions && n.domain.executions[x] == e
            && n.domain == s.domain.(executions := s.domain.executions[x := e])
            && n.insertions == s.insertions && n.plays == s.plays && n.decks == s.decks
  {
  }

  lemma SuppressRemembers(s: Station, x: ExecutionId, now: Time)
    requires x in s.Executions() && InHand(s.Executions()[x].state)
    ensures Remembered(s, Suppress(s, x, now))
  {
    RowRemembers(s, Suppress(s, x, now), x);
  }

  lemma DeliverRemembers(s: Station, c: Command, item: LogItemId, category: bool, now: Time)
    requires item !in s.insertions
    ensures Remembered(s, Deliver(s, c, item, category, now))
  {
    SameRemembers(s);
    if Admits(s, c, category) {
      hide StaleNow, InsertedToken, Remembered;
      RowRemembers(s, Deliver(s, c, item, category, now), c.execution);
    }
  }

  lemma AuthorizeRemembers(s: Station, item: LogItemId, named: bool, now: Time)
    ensures Remembered(s, AuthorizeOpen(s, item, named, now))
  {
    hide Remembered, Suppress, GateOpen;
    var n := AuthorizeOpen(s, item, named, now);
    SameRemembers(s);
    assert Remembered(s, s.(phase := Opening(item))) by { PhaseRemembers(s, Opening(item)); }
    if n != s && n != s.(phase := Opening(item)) {
      var x := s.insertions[item].execution;
      if !Judge(s, item, named) {
        SuppressRemembers(s, x, now);
      } else {
        RowRemembers(s, n, x);
      }
    }
  }

  lemma PhaseRemembers(s: Station, phase: Phase)
    ensures Remembered(s, s.(phase := phase))
  {
  }

  /** LogItems, decks, PlayEvents and publications beside unchanged execution rows. */
  lemma SameDomainRemembers(s: Station, n: Station)
    requires n.domain == s.domain && EvidenceRemembered(s, n)
    ensures Remembered(s, n)
  {
    hide EvidenceRemembered, RowHistory;
    SameRemembers(s);
  }

  lemma TablesRemember(s: Station, n: Station)
    requires n.domain == s.domain && n.plays == s.plays && n.insertions == s.insertions && s.decks <= n.decks
    ensures Remembered(s, n)
  {
    hide Remembered;
    SameDomainRemembers(s, n);
  }

  lemma AirStartRemembers(s: Station, item: LogItemId, at: Time)
    requires AiringOk(s)
    ensures Remembered(s, AirStart(s, item, at))
  {
    hide Remembered, AiringOk;
    PlayedFlag(s);
    SameDomainRemembers(s, AirStart(s, item, at));
  }

  lemma PlayedFlag(s: Station)
    requires AiringOk(s)
    ensures forall i :: i in s.plays && i in s.logItems ==> s.logItems[i].played
  {
    hide IssuedOk, PublicationsOk, DecksOk, AirOk;
  }

  lemma SyncStartedRemembers(s: Station, x: ExecutionId, claimedAt: Option<Time>)
    ensures Remembered(s, SyncStarted(s, x, claimedAt))
  {
    hide Evidence, Remembered;
    SameRemembers(s);
    var n := SyncStarted(s, x, claimedAt);
    if n != s {
      RowRemembers(s, n, x);
    }
  }

  lemma EndedAirRemembers(s: Station, x: ExecutionId, clean: bool, endedAt: Time, ms: int, now: Time)
    requires x in s.Executions() && s.Executions()[x].state.Started?
    ensures var t := s.Executions()[x].token.GetOr(0);
            Remembered(s, WithDomain(s, if clean then AirCompleted(s.domain, x, t, endedAt, Some(ms), now).domain
                                        else AirInterrupted(s.domain, x, t, endedAt, Some(ms), now).domain))
  {
    hide Participants, CadencedRow;
  }

  lemma SyncEndedRemembers(s: Station, x: ExecutionId, clean: bool, endedAt: Time, ms: int, now: Time)
    ensures Remembered(s, SyncEnded(s, x, clean, endedAt, ms, now))
  {
    hide Evidence, Remembered, AirCompleted, AirInterrupted;
    SameRemembers(s);
    if SyncEnded(s, x, clean, endedAt, ms, now) != s {
      EndedAirRemembers(s, x, clean, if clean then endedAt else Later(endedAt, s.Executions()[x].startedAt), ms, now);
    }
  }

  lemma BootSettleRemembers(s: Station, x: ExecutionId, token: Token, evidenceAt: Time, ms: int, now: Time)
    ensures Remembered(s, BootSettle(s, x, token, evidenceAt, ms, now))
  {
    hide Remembered, AirCompleted, AirInterrupted, Redispatch, Suppress, StaleNow;
    SameRemembers(s);
    if BootSettle(s, x, token, evidenceAt, ms, now) != s {
      var e := s.Executions()[x];
      if e.state.Started? {
        EndedAirRemembers(s, x, false, Later(evidenceAt, e.startedAt), ms, now);
      } else {
        SuppressRemembers(s, x, now);
        if x in s.publications {
          RedispatchRemembers(s, x, token, now);
        }
      }
    }
  }

  lemma ReportRemembers(s: Station, item: LogItemId, token: Token, now: Time)
    ensures Remembered(s, ReportNotAired(s, item, token, now))
  {
    hide Remembered, Redispatch, Suppress, StaleNow;
    SameRemembers(s);
    if ReportNotAired(s, item, token, now) != s {
      var x := s.insertions[item].execution;
      SuppressRemembers(s, x, now);
      if x in s.publications {
        RedispatchRemembers(s, x, token, now);
      }
    }
  }

  lemma HeldRemembers(s: Station, x: ExecutionId, token: Token, now: Time)
    ensures Remembered(s, HeldStep(s, x, token, now))
  {
    hide Remembered, Redispatch, Suppress, StaleNow, InsertionOf;
    SameRemembers(s);
    if HeldStep(s, x, token, now) != s {
      SuppressRemembers(s, x, now);
      if x in s.publications {
        RedispatchRemembers(s, x, token, now);
      }
    }
  }

  lemma DispatchRemembers(s: Station, x: ExecutionId, token: Token, now: Time)
    ensures Remembered(s, Dispatch(s, x, token, now))
  {
    hide Remembered, Redispatch, StaleNow;
    SameRemembers(s);
    if Dispatch(s, x, token, now) != s {
      RedispatchRemembers(s, x, token, now);
    }
  }

  lemma PublicationFailsRemembers(s: Station, x: ExecutionId, code: FailureCode, now: Time)
    ensures Remembered(s, PublicationFails(s, x, code, now))
  {
    SameRemembers(s);
    hide Remembered;
    if PublicationFails(s, x, code, now) != s {
      RowRemembers(s, PublicationFails(s, x, code, now), x);
    }
  }

  lemma BootSyncRemembers(s: Station, x: ExecutionId, claimedAt: Option<Time>)
    ensures Remembered(s, BootSync(s, x, claimedAt))
  {
    hide Remembered, SyncStarted;
    SameRemembers(s);
    if s.phase.Booting? {
      SyncStartedRemembers(s, x, claimedAt);
      PhaseRemembers(SyncStarted(s, x, claimedAt), Booting(s.phase.synced + {x}));
      RememberedTwice(s, SyncStarted(s, x, claimedAt), BootSync(s, x, claimedAt));
    }
  }

  lemma PublishRemembers(s: Station, x: ExecutionId)
    ensures Remembered(s, Publish(s, x))
  {
    hide Remembered;
    TablesRemember(s, Publish(s, x));
  }

  lemma DeckRemembers(s: Station, commits: bool, reported: bool)
    ensures Remembered(s, ClaimPlayback(s, commits, reported))
    ensures Remembered(s, BuildDeck(s, commits))
  {
    hide Remembered;
    TablesRemember(s, ClaimPlayback(s, commits, reported));
    TablesRemember(s, BuildDeck(s, commits));
  }

  lemma NextRemembers(s: Station, step: Step, now: Time)
    requires StationOk(s) && Enabled(s, step)
    ensures Remembered(s, Next(s, step, now))
  {
    hide DomainOk, AiringOk, Remembered, Serve, Publish, PublicationFails, Dispatch, Deliver, AuthorizeOpen,
         ReportNotAired, SyncStarted, SyncEnded, BootSync, BootSettle, HeldStep, AirStart, ClaimPlayback, BuildDeck;
    match step
    case Service(call) =>
      ServeIsOrdinary(s.domain, call, now);
      OrdinaryRemembers(s, Serve(s.domain, call, now).domain);
    case PublicationFailed(x, code) => PublicationFailsRemembers(s, x, code, now);
    case Dispatched(x, token) => DispatchRemembers(s, x, token, now);
    case Delivered(command, item, category) => DeliverRemembers(s, command, item, category, now);
    case Authorized(item, named) => AuthorizeRemembers(s, item, named, now);
    case NotAired(item, token) => ReportRemembers(s, item, token, now);
    case EvidenceStarted(x, claimedAt) => SyncStartedRemembers(s, x, claimedAt);
    case EvidenceEnded(x, clean, endedAt, ms) => SyncEndedRemembers(s, x, clean, endedAt, ms, now);
    case BootSynced(x, claimedAt) => BootSyncRemembers(s, x, claimedAt);
    case BootSettled(x, token, evidenceAt, ms) => BootSettleRemembers(s, x, token, evidenceAt, ms, now);
    case HeldStepped(x, token) => HeldRemembers(s, x, token, now);
    case AirStarts(item, at) => AirStartRemembers(s, item, at);
    case Published(x) => PublishRemembers(s, x);
    case PlaybackClaimed(commits, reported) => DeckRemembers(s, commits, reported);
    case DeckBuilt(built) => DeckRemembers(s, built, built);
    case TrackDeleted(_) => TablesRemember(s, Next(s, step, now));
    case FileLost(_) => TablesRemember(s, Next(s, step, now));
    case LogItemDeleted(_) => TablesRemember(s, Next(s, step, now));
    case Restarted(_) => TablesRemember(s, Next(s, step, now));
    case Booted => TablesRemember(s, Next(s, step, now));
  }

  lemma TakeRemembers(s: Station, m: Moment)
    requires StationOk(s)
    ensures Remembered(s, Take(s, m))
  {
    hide StationOk, Remembered, Next;
    SameRemembers(s);
    if Enabled(s, m.step) {
      NextRemembers(s, m.step, m.now);
    }
  }

  /** History is never lost: what held after the first `k` moments of a run is still recorded at its end. */
  lemma {:induction false} RunRemembers(s: Station, run: seq<Moment>, k: nat)
    requires Initial(s) && k <= |run|
    ensures Remembered(After(s, run[..k]), After(s, run))
  {
    hide Initial, Remembered, Take, StationOk;
    if k == |run| {
      assert run[..k] == run;
      SameRemembers(After(s, run));
    } else {
      var before := run[..|run| - 1];
      assert before[..k] == run[..k];
      RunRemembers(s, before, k);
      ReachableOk(s, before);
      TakeRemembers(After(s, before), run[|run| - 1]);
      RememberedTwice(After(s, run[..k]), After(s, before), After(s, run));
    }
  }
}
