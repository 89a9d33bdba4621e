/** Every step of the station keeps its invariant. */
module PlayoutSteps {
  import opened Common
  import opened Composition
  import opened Services
  import opened DomainInvariants
  import opened Playout
  import opened ServiceSteps
  import opened PlayoutInvariants

  // -- when an attempt may be superseded ----------------------------------------------------------------------

  lemma QuietUnlessClaimed(s: Station, x: ExecutionId)
    requires AiringOk(s) && x in s.Executions() && !WasClaimed(s.Executions()[x].state)
    ensures Quiet(s, x)
  {
    hide IssuedOk, PublicationsOk, InsertionsOk, WasClaimed;
    forall item | item in s.insertions && s.insertions[item].execution == x
      ensures item !in s.plays && !DeckOf(s, s.engine, item)
      ensures s.phase.Opening? || s.phase.Building? ==> s.phase.item != item
    {
      assert Handed(s, item) ==> WasClaimed(RowOf(s, item).state);
    }
  }

  /** An attempt not yet spliced has no LogItem; its predecessors were superseded while quiet. */
  lemma QuietWithoutInsertion(s: Station, x: ExecutionId)
    requires AiringOk(s) && x in s.Executions() && InsertionOf(s, x).None?
    ensures Quiet(s, x)
  {
    hide IssuedOk, PublicationsOk, InsertionsOk, WasClaimed;
    forall item | item in s.insertions && s.insertions[item].execution == x
      ensures item !in s.plays && !DeckOf(s, s.engine, item)
      ensures s.phase.Opening? || s.phase.Building? ==> s.phase.item != item
    {
      assert !Current(s, item);
      assert Handed(s, item) ==> Current(s, item);
    }
  }

  /** The engine reports a claimed item it provably never built a deck for. */
  lemma QuietReported(s: Station, item: LogItemId)
    requires AiringOk(s) && s.phase.Idle? && Current(s, item) && item !in s.plays
    requires ProvablyUnbuilt(s, item, RowOf(s, item))
    ensures Quiet(s, s.insertions[item].execution)
  {
    hide IssuedOk, PublicationsOk, InsertionsOk, WasClaimed;
    var x := s.insertions[item].execution;
    forall other | other in s.insertions && s.insertions[other].execution == x
      ensures other !in s.plays && !DeckOf(s, s.engine, other)
    {
      if other in s.plays || DeckOf(s, s.engine, other) {
        assert DeckOf(s, s.engine, other) ==> Handed(s, other);
        assert Current(s, other);
        CurrentIsUnique(s, item, other);
      }
    }
  }

  /** At start-up the new process has built nothing, and evidence of the old one was projected first. */
  lemma QuietAtBoot(s: Station, x: ExecutionId)
    requires AiringOk(s) && s.phase.Booting? && x in s.phase.synced && x in s.Executions()
    requires EngineHeld(s.Executions()[x].state)
    ensures Quiet(s, x)
  {
    hide IssuedOk, PublicationsOk, InsertionsOk;
    forall item | item in s.insertions && s.insertions[item].execution == x
      ensures item !in s.plays && !DeckOf(s, s.engine, item)
    {
      assert Unprojected(s, item) || item !in s.plays;
    }
  }

  // -- superseding ----------------------------------------------------------------------------------------------

  lemma RowWriteKeeps(s: Station, x: ExecutionId, e: Execution)
    requires DomainOk(s.domain) && x in s.Executions() && RowStep(s.domain.policy.limits, s.Executions()[x], e)
    ensures DomainOk(WithRow(s, x, e).domain)
  {
    hide DomainOk, RowStep;
    RowStepKeeps(s.domain, x, e);
  }

  predicate InHand(state: ExecutionState) {
    state.Ready? || EngineHeld(state)
  }

  lemma FinishKeeps(s: Station, x: ExecutionId, state: ExecutionState, code: FailureCode, now: Time)
    requires StationOk(s) && x in s.Executions() && Quiet(s, x) && InHand(s.Executions()[x].state)
    requires state.Failed? || state.Suppressed?
    ensures StationOk(WithRow(s, x, Finished(s.Executions()[x], state, code, now)))
  {
    hide DomainOk, AiringOk, Quiet, FrozenOk, WithinLimits;
    var e := Finished(s.Executions()[x], state, code, now);
    RowFacts(s.domain, x);
    FrozenCarries(s.Executions()[x], e);
    RowWriteKeeps(s, x, e);
    SupersedingKeeps(s, x, e, WithRow(s, x, e));
  }

  lemma SuppressKeeps(s: Station, x: ExecutionId, now: Time)
    requires StationOk(s) && x in s.Executions() && Quiet(s, x) && InHand(s.Executions()[x].state)
    ensures StationOk(Suppress(s, x, now))
  {
    hide StationOk, Quiet;
    FinishKeeps(s, x, Suppressed, StaleGeneration, now);
  }

  lemma NewAttemptKeeps(s: Station, x: ExecutionId, token: Token, now: Time)
    requires StationOk(s) && x in s.Executions() && Quiet(s, x) && InHand(s.Executions()[x].state)
    requires token !in s.issued
    ensures StationOk(NewAttempt(s, x, token, now))
  {
    hide DomainOk, AiringOk, Quiet, FrozenOk;
    var o := s.Executions()[x];
    if o.attempts >= MAX_ATTEMPTS {
      FinishKeeps(s, x, Failed, DispatchExhausted, now);
    } else {
      var e := Rotated(o, token, now);
      RowFacts(s.domain, x);
      FrozenCarries(o, e);
      RowWriteKeeps(s, x, e);
      SupersedingKeeps(s, x, e, NewAttempt(s, x, token, now));
    }
  }

  lemma RedispatchKeeps(s: Station, x: ExecutionId, token: Token, now: Time)
    requires StationOk(s) && x in s.Executions() && Quiet(s, x) && InHand(s.Executions()[x].state)
    requires token !in s.issued && x in s.publications
    ensures StationOk(Redispatch(s, x, token, now))
  {
    hide StationOk, Quiet;
    if !Insertable(s.publications[x]) {
      FinishKeeps(s, x, Failed, PublicationUnavailable, now);
    } else {
      NewAttemptKeeps(s, x, token, now);
    }
  }

  lemma PublicationFailsKeeps(s: Station, x: ExecutionId, code: FailureCode, now: Time)
    requires StationOk(s)
    ensures StationOk(PublicationFails(s, x, code, now))
  {
    hide DomainOk, AiringOk, Quiet;
    if PublicationFails(s, x, code, now) != s {
      QuietUnlessClaimed(s, x);
      FinishKeeps(s, x, Failed, code, now);
    }
  }

  lemma DispatchKeeps(s: Station, x: ExecutionId, token: Token, now: Time)
    requires StationOk(s) && token !in s.issued
    ensures StationOk(Dispatch(s, x, token, now))
  {
    hide DomainOk, AiringOk, Quiet, Redispatch;
    if Dispatch(s, x, token, now) != s {
      QuietUnlessClaimed(s, x);
      RedispatchKeeps(s, x, token, now);
    }
  }

  lemma ReportNotAiredKeeps(s: Station, item: LogItemId, token: Token, now: Time)
    requires StationOk(s) && s.phase.Idle? && token !in s.issued
    ensures StationOk(ReportNotAired(s, item, token, now))
  {
    hide DomainOk, AiringOk, Quiet, Redispatch, Suppress, StaleNow;
    if ReportNotAired(s, item, token, now) != s {
      var x, e := s.insertions[item].execution, RowOf(s, item);
      if e.state.Claimed? {
        QuietReported(s, item);
      } else {
        QuietUnlessClaimed(s, x);
      }
      if StaleNow(s, e) {
        SuppressKeeps(s, x, now);
      } else {
        RedispatchKeeps(s, x, token, now);
      }
    }
  }

  lemma HeldStepKeeps(s: Station, x: ExecutionId, token: Token, now: Time)
    requires StationOk(s) && token !in s.issued
    ensures StationOk(HeldStep(s, x, token, now))
  {
    hide DomainOk, AiringOk, Quiet, Redispatch, InsertionOf, StaleNow, InFlight;
    if HeldStep(s, x, token, now) != s {
      if InsertionOf(s, x).None? {
        QuietWithoutInsertion(s, x);
      } else {
        QuietUnlessClaimed(s, x);
      }
      SuppressKeeps(s, x, now);
      if x in s.publications {
        RedispatchKeeps(s, x, token, now);
      }
    }
  }

  // -- insertion and claim ----------------------------------------------------------------------------------------

  lemma DeliverKeeps(s: Station, c: Command, item: LogItemId, category: bool, now: Time)
    requires StationOk(s) && s.phase.Idle? && item !in s.insertions
    ensures StationOk(Deliver(s, c, item, category, now))
  {
    hide DomainOk, InsertionsOk, IssuedOk, PublicationsOk, DecksOk, AirOk, Admits, Quiet;
    if Admits(s, c, category) {
      hide Deliver;
      DeliveredDomain(s, c, item, category, now);
      DeliveredTables(s, c, item, category, now);
      assert Quiet(s, c.execution) by { AdmittedQuiet(s, c, category); }
      KeysFacts(s);
      DeliveredDecks(s, c, item, category, now);
      DeliveredAir(s, c, item, category, now);
    }
  }

  lemma KeysFacts(s: Station)
    requires InsertionsOk(s)
    ensures s.logItems.Keys <= s.insertions.Keys && s.plays.Keys <= s.insertions.Keys
  {
  }

  lemma AdmittedQuiet(s: Station, c: Command, category: bool)
    requires AiringOk(s) && Admits(s, c, category)
    ensures Quiet(s, c.execution)
  {
    hide AiringOk, InsertedToken, Quiet, StaleNow;
    DeliveredQuiet(s, c);
  }

  lemma DeliveredDomain(s: Station, c: Command, item: LogItemId, category: bool, now: Time)
    requires DomainOk(s.domain) && Admits(s, c, category)
    ensures DomainOk(Deliver(s, c, item, category, now).domain)
  {
    hide DomainOk, FrozenOk, WithinLimits, StaleNow, InsertedToken;
    var o := s.Executions()[c.execution];
    var e := AcceptedRow(o, s.engine, now);
    RowFacts(s.domain, c.execution);
    FrozenCarries(o, e);
    RowWriteKeeps(s, c.execution, e);
  }

  lemma DeliveredQuiet(s: Station, c: Command)
    requires AiringOk(s) && c.execution in s.Executions()
    requires s.Executions()[c.execution].token == Some(c.token) && !InsertedToken(s, c.token)
    ensures Quiet(s, c.execution)
  {
    hide AiringOk, InsertedToken, InsertionOf;
    if InsertionOf(s, c.execution).Some? {
      CurrentIsInserted(s, InsertionOf(s, c.execution).value);
    } else {
      QuietWithoutInsertion(s, c.execution);
    }
  }

  lemma CurrentIsInserted(s: Station, item: LogItemId)
    requires Current(s, item)
    ensures InsertedToken(s, RowOf(s, item).token.value)
  {
  }

  lemma DeliveredTables(s: Station, c: Command, item: LogItemId, category: bool, now: Time)
    requires InsertionsOk(s) && IssuedOk(s) && PublicationsOk(s)
    requires item !in s.insertions && Admits(s, c, category)
    ensures var n := Deliver(s, c, item, category, now); InsertionsOk(n) && IssuedOk(n) && PublicationsOk(n)
  {
    hide StaleNow, InsertedToken, InsertionsOk, PublicationsOk, IssuedOk, Deliver, Admits;
    DeliveredInsertions(s, c, item, category, now);
    DeliveredRows(s, c, item, category, now);
  }

  lemma DeliveredRows(s: Station, c: Command, item: LogItemId, category: bool, now: Time)
    requires IssuedOk(s) && PublicationsOk(s) && Admits(s, c, category)
    ensures var n := Deliver(s, c, item, category, now); IssuedOk(n) && PublicationsOk(n)
  {
    hide StaleNow, InsertedToken;
    assert PublicationsOk(Deliver(s, c, item, category, now)) by { hide IssuedOk; }
    hide PublicationsOk;
  }

  lemma DeliveredInsertions(s: Station, c: Command, item: LogItemId, category: bool, now: Time)
    requires InsertionsOk(s) && IssuedOk(s)
    requires item !in s.insertions && Admits(s, c, category)
    ensures InsertionsOk(Deliver(s, c, item, category, now))
  {
    hide StaleNow;
    var n := Deliver(s, c, item, category, now);
    assert item !in s.plays && item !in s.logItems;
    assert c.token in s.issued && s.issued[c.token] == c.execution;
    hide IssuedOk;
    forall a, b | SameToken(n, a, b) ensures a == b {
      assert a != item && b != item ==> SameToken(s, a, b);
    }
    forall i | i in n.insertions
      ensures n.insertions[i].execution in n.Executions() && n.insertions[i].execution in n.publications
      ensures n.insertions[i].token in n.issued && n.issued[n.insertions[i].token] == n.insertions[i].execution
    {
      assert i == item || i in s.insertions;
    }
  }

  lemma DeliveredDecks(s: Station, c: Command, item: LogItemId, category: bool, now: Time)
    requires DecksOk(s) && s.phase.Idle? && s.logItems.Keys <= s.insertions.Keys
    requires item !in s.insertions && Admits(s, c, category) && Quiet(s, c.execution)
    ensures DecksOk(Deliver(s, c, item, category, now))
  {
    var n := Deliver(s, c, item, category, now);
    hide StaleNow, WasClaimed, InsertedToken;
    forall g, i | DeckOf(n, g, i)
      ensures g in n.engines && i in n.insertions && (i in n.logItems ==> n.logItems[i].claimed)
    {
      assert DeckOf(s, g, i);
    }
    forall i | DeckOf(n, n.engine, i) ensures Handed(n, i) {
      assert DeckOf(s, s.engine, i) && Handed(s, i);
    }
    forall g, a, b | DeckOf(n, g, a) && DeckOf(n, g, b) && SameExecution(n, a, b) ensures a == b {
      assert DeckOf(s, g, a) && DeckOf(s, g, b) && SameExecution(s, a, b);
    }
  }

  lemma DeliveredAir(s: Station, c: Command, item: LogItemId, category: bool, now: Time)
    requires AirOk(s) && s.phase.Idle? && s.plays.Keys <= s.insertions.Keys
    requires item !in s.insertions && Admits(s, c, category) && Quiet(s, c.execution)
    ensures AirOk(Deliver(s, c, item, category, now))
  {
    var n := Deliver(s, c, item, category, now);
    hide StaleNow, InsertedToken;
    forall i | i in n.plays ensures Current(n, i) && WasClaimed(RowOf(n, i).state) {
      assert Current(s, i) && s.insertions[i].execution != c.execution;
    }
    forall x | x in n.Executions() && WasStarted(n.Executions()[x].state) ensures exists i :: StartedBy(n, x, i) {
      StartedCarries(s, n, x);
    }
  }

  lemma AuthorizeKeeps(s: Station, item: LogItemId, named: bool, now: Time)
    requires StationOk(s) && s.phase.Idle?
    ensures StationOk(AuthorizeOpen(s, item, named, now))
  {
    hide DomainOk, AiringOk, Quiet, Suppress;
    var n := AuthorizeOpen(s, item, named, now);
    if n != s {
      var x := s.insertions[item].execution;
      if !Judge(s, item, named) {
        QuietUnlessClaimed(s, x);
        SuppressKeeps(s, x, now);
      } else if RowOf(s, item).state.Accepted? {
        ClaimKeeps(s, item, now);
      } else {
        ContinueKeeps(s, item);
      }
    }
  }

  lemma ContinueKeeps(s: Station, item: LogItemId)
    requires StationOk(s) && s.phase.Idle? && Handed(s, item)
    ensures StationOk(s.(phase := Opening(item)))
  {
    hide DomainOk;
    var n := s.(phase := Opening(item));
    assert InsertionsOk(n) && IssuedOk(n) && PublicationsOk(n) by {
      hide DecksOk, AirOk;
      SameTables(s, n);
    }
    hide InsertionsOk, IssuedOk, PublicationsOk;
    assert DecksOk(n) by {
      hide AirOk;
      SameDecks(s, n);
    }
    hide DecksOk;
    SameAir(s, n);
  }

  lemma SameTables(s: Station, n: Station)
    requires InsertionsOk(s) && IssuedOk(s) && PublicationsOk(s)
    requires n.domain == s.domain && n.insertions == s.insertions && n.issued == s.issued && n.commands == s.commands
    requires n.publications == s.publications && n.plays == s.plays && n.logItems == s.logItems
    ensures InsertionsOk(n) && IssuedOk(n) && PublicationsOk(n)
  {
    assert n.Executions() == s.Executions();
    forall a, b | SameToken(n, a, b) ensures a == b {
      assert SameToken(s, a, b);
    }
  }

  lemma SameDecks(s: Station, n: Station)
    requires DecksOk(s)
    requires n.domain == s.domain && n.insertions == s.insertions && n.decks == s.decks && n.logItems == s.logItems
    requires n.engine == s.engine && n.engines == s.engines
    requires n.phase.Opening? || n.phase.Building? ==> Handed(n, n.phase.item)
    requires n.phase.Building? && n.phase.item in n.logItems ==> n.logItems[n.phase.item].claimed
    requires n.phase.Booting? ==> s.phase.Booting?
    ensures DecksOk(n)
  {
    hide WasClaimed;
    forall g, i | DeckOf(n, g, i)
      ensures g in n.engines && i in n.insertions && (i in n.logItems ==> n.logItems[i].claimed)
    {
      assert DeckOf(s, g, i);
    }
    forall i | DeckOf(n, n.engine, i) ensures Handed(n, i) {
      assert DeckOf(s, s.engine, i) && Handed(s, i);
    }
    forall g, a, b | DeckOf(n, g, a) && DeckOf(n, g, b) && SameExecution(n, a, b) ensures a == b {
      assert DeckOf(s, g, a) && DeckOf(s, g, b) && SameExecution(s, a, b);
    }
    forall i ensures n.phase.Booting? ==> !DeckOf(n, n.engine, i) {
      assert s.phase.Booting? ==> !DeckOf(s, s.engine, i);
    }
  }

  lemma SameAir(s: Station, n: Station)
    requires AirOk(s)
    requires n.domain == s.domain && n.insertions == s.insertions && n.plays == s.plays
    requires n.phase.Booting? ==> s.phase.Booting? && n.phase.synced == s.phase.synced
    ensures AirOk(n)
  {
    forall x | x in n.Executions() && WasStarted(n.Executions()[x].state) ensures exists i :: StartedBy(n, x, i) {
      StartedCarries(s, n, x);
    }
    forall i | i in n.plays && Unprojected(n, i) && n.phase.Booting? ensures n.insertions[i].execution !in n.phase.synced {
      assert Unprojected(s, i);
    }
  }

  lemma StartedCarries(s: Station, n: Station, x: ExecutionId)
    requires AirOk(s) && x in s.Executions() && WasStarted(s.Executions()[x].state)
    requires x in n.Executions() && n.Executions()[x].token == s.Executions()[x].token &&
             n.Executions()[x].startedAt == s.Executions()[x].startedAt
    requires forall i :: i in s.plays ==> i in n.plays && n.plays[i] == s.plays[i]
    requires forall i :: i in s.insertions ==> i in n.insertions && n.insertions[i] == s.insertions[i]
    ensures exists i :: StartedBy(n, x, i)
  {
    var i :| StartedBy(s, x, i);
    assert StartedBy(n, x, i);
  }

  lemma ClaimKeeps(s: Station, item: LogItemId, now: Time)
    requires StationOk(s) && s.phase.Idle? && Current(s, item) && RowOf(s, item).state.Accepted?
    ensures StationOk(WithRow(s, s.insertions[item].execution, ClaimedRow(RowOf(s, item), s.engine, now))
                        .(phase := Opening(item)))
  {
    hide DomainOk, AiringOk, FrozenOk, WithinLimits, Quiet;
    var x, o := s.insertions[item].execution, RowOf(s, item);
    var e := ClaimedRow(o, s.engine, now);
    RowFacts(s.domain, x);
    FrozenCarries(o, e);
    RowWriteKeeps(s, x, e);
    QuietUnlessClaimed(s, x);
    SupersedingKeeps(s, x, e, WithRow(s, x, e));
    ContinueKeeps(WithRow(s, x, e), item);
  }

  // -- deck and air -------------------------------------------------------------------------------------------------

  lemma ClaimPlaybackKeeps(s: Station, commits: bool, reported: bool)
    requires AiringOk(s)
    ensures AiringOk(ClaimPlayback(s, commits, reported))
  {
    hide IssuedOk, PublicationsOk, WasClaimed;
    var n := ClaimPlayback(s, commits, reported);
    if n != s {
      assert n.logItems.Keys == s.logItems.Keys;
      assert InsertionsOk(n) && IssuedOk(n) && PublicationsOk(n) by {
        hide AirOk, DecksOk;
        ClaimPlaybackTables(s, n);
      }
      hide InsertionsOk;
      assert DecksOk(n) by { hide AirOk; ClaimPlaybackDecks(s, n); }
      hide DecksOk;
      SameAir(s, n);
    }
  }

  /** LogItems may become claimed, and nothing else. */
  predicate MoreClaimed(s: Station, n: Station) {
    && n == s.(logItems := n.logItems, phase := n.phase) && n.logItems.Keys == s.logItems.Keys
    && forall i :: i in s.logItems ==>
         n.logItems[i].played == s.logItems[i].played && (s.logItems[i].claimed ==> n.logItems[i].claimed)
  }

  lemma ClaimPlaybackTables(s: Station, n: Station)
    requires InsertionsOk(s) && IssuedOk(s) && PublicationsOk(s) && MoreClaimed(s, n)
    ensures InsertionsOk(n) && IssuedOk(n) && PublicationsOk(n)
  {
    assert n.Executions() == s.Executions();
    forall a, b | SameToken(n, a, b) ensures a == b {
      assert SameToken(s, a, b);
    }
  }

  lemma ClaimPlaybackDecks(s: Station, n: Station)
    requires DecksOk(s) && MoreClaimed(s, n) && !n.phase.Booting?
    requires n.phase.Opening? || n.phase.Building? ==> Handed(s, n.phase.item)
    requires n.phase.Building? && n.phase.item in n.logItems ==> n.logItems[n.phase.item].claimed
    ensures DecksOk(n)
  {
    hide WasClaimed;
    forall g, i | DeckOf(n, g, i)
      ensures g in n.engines && i in n.insertions && (i in n.logItems ==> n.logItems[i].claimed)
    {
      assert DeckOf(s, g, i);
    }
    forall i | DeckOf(n, n.engine, i) ensures Handed(n, i) {
      assert DeckOf(s, s.engine, i) && Handed(s, i);
    }
    forall g, a, b | DeckOf(n, g, a) && DeckOf(n, g, b) && SameExecution(n, a, b) ensures a == b {
      assert DeckOf(s, g, a) && DeckOf(s, g, b) && SameExecution(s, a, b);
    }
  }

  lemma BuildDeckKeeps(s: Station, built: bool)
    requires AiringOk(s)
    ensures AiringOk(BuildDeck(s, built))
  {
    var n := BuildDeck(s, built);
    if n != s {
      assert InsertionsOk(n) && IssuedOk(n) && PublicationsOk(n) by {
        hide AirOk, DecksOk;
        SameTables(s, n);
      }
      assert AirOk(n) by {
        hide InsertionsOk, IssuedOk, PublicationsOk, DecksOk;
        SameAir(s, n);
      }
      hide AirOk, IssuedOk, PublicationsOk;
      BuildDeckDecks(s, built);
    }
  }

  /** The new deck is of the current attempt, and every earlier deck of this process was too: one LogItem. */
  lemma BuildDeckDecks(s: Station, built: bool)
    requires InsertionsOk(s) && DecksOk(s) && s.phase.Building?
    ensures DecksOk(BuildDeck(s, built))
  {
    hide WasClaimed;
    var n, item := BuildDeck(s, built), s.phase.item;
    forall g, i | DeckOf(n, g, i)
      ensures g in n.engines && i in n.insertions && (i in n.logItems ==> n.logItems[i].claimed)
    {
      assert DeckOf(s, g, i) || (g == s.engine && i == item);
    }
    forall i | DeckOf(n, n.engine, i) ensures Handed(n, i) && Handed(s, i) {
      assert DeckOf(s, s.engine, i) || i == item;
    }
    forall g, a, b | DeckOf(n, g, a) && DeckOf(n, g, b) && SameExecution(n, a, b) ensures a == b {
      assert SameExecution(s, a, b);
      if g == s.engine {
        CurrentIsUnique(s, a, b);
      } else {
        assert DeckOf(s, g, a) && DeckOf(s, g, b);
      }
    }
  }

  lemma AirStartKeeps(s: Station, item: LogItemId, at: Time)
    requires AiringOk(s)
    ensures AiringOk(AirStart(s, item, at))
  {
    hide InsertionsOk, IssuedOk, PublicationsOk, DecksOk, AirOk, AirStart;
    var n := AirStart(s, item, at);
    if n != s {
      AirStartTables(s, item, at);
      AirStartDecks(s, item, at);
      AirStartAir(s, item, at);
    }
  }

  lemma AirStartTables(s: Station, item: LogItemId, at: Time)
    requires InsertionsOk(s) && IssuedOk(s) && PublicationsOk(s)
    ensures var n := AirStart(s, item, at); InsertionsOk(n) && IssuedOk(n) && PublicationsOk(n)
  {
    var n := AirStart(s, item, at);
    assert n.Executions() == s.Executions();
    assert InsertionsOk(n) by {
      hide IssuedOk, PublicationsOk;
      AirStartInsertions(s, item, at);
    }
    hide InsertionsOk, AirStart;
    assert n == s.(logItems := n.logItems, plays := n.plays) by { AirStartWrites(s, item, at); }
  }

  lemma AirStartWrites(s: Station, item: LogItemId, at: Time)
    ensures var n := AirStart(s, item, at); n == s.(logItems := n.logItems, plays := n.plays)
  {
  }

  lemma AirStartInsertions(s: Station, item: LogItemId, at: Time)
    requires InsertionsOk(s)
    ensures InsertionsOk(AirStart(s, item, at))
  {
    var n := AirStart(s, item, at);
    assert n.logItems.Keys == s.logItems.Keys;
    forall a, b | SameToken(n, a, b) ensures a == b {
      assert SameToken(s, a, b);
    }
  }

  lemma AirStartAir(s: Station, item: LogItemId, at: Time)
    requires InsertionsOk(s) && DecksOk(s) && AirOk(s)
    ensures AirOk(AirStart(s, item, at))
  {
    var n := AirStart(s, item, at);
    if n != s {
      assert DeckOf(s, s.engine, item) && Handed(s, item);
      assert item !in s.plays;
      hide InsertionsOk, DecksOk;
      forall i | i in n.plays ensures Current(n, i) && WasClaimed(RowOf(n, i).state) {
        assert Current(s, i) && RowOf(n, i) == RowOf(s, i);
      }
      forall x | x in n.Executions() && WasStarted(n.Executions()[x].state) ensures exists i :: StartedBy(n, x, i) {
        StartedCarries(s, n, x);
      }
    }
  }

  lemma AirStartDecks(s: Station, item: LogItemId, at: Time)
    requires DecksOk(s)
    ensures DecksOk(AirStart(s, item, at))
  {
    hide WasClaimed;
    var n := AirStart(s, item, at);
    forall g, i | DeckOf(n, g, i)
      ensures g in n.engines && i in n.insertions && (i in n.logItems ==> n.logItems[i].claimed)
    {
      assert DeckOf(s, g, i);
    }
    forall i | DeckOf(n, n.engine, i) ensures Handed(n, i) {
      assert DeckOf(s, s.engine, i) && Handed(s, i);
    }
    forall g, a, b | DeckOf(n, g, a) && DeckOf(n, g, b) && SameExecution(n, a, b) ensures a == b {
      assert DeckOf(s, g, a) && DeckOf(s, g, b) && SameExecution(s, a, b);
    }
    forall i ensures n.phase.Booting? ==> !DeckOf(n, n.engine, i) {
      assert s.phase.Booting? ==> !DeckOf(s, s.engine, i);
    }
  }

  // -- evidence and restart ----------------------------------------------------------------------------------------

  lemma SyncStartedKeeps(s: Station, x: ExecutionId, claimedAt: Option<Time>)
    requires StationOk(s)
    ensures StationOk(SyncStarted(s, x, claimedAt))
    ensures var n := SyncStarted(s, x, claimedAt);
            x in n.Executions() && EngineHeld(n.Executions()[x].state) ==> Evidence(n, x).None?
  {
    hide DomainOk, AiringOk, InsertionOf;
    var n := SyncStarted(s, x, claimedAt);
    if x in s.Executions() && EngineHeld(s.Executions()[x].state) && Evidence(s, x).Some? {
      var o, item := s.Executions()[x], InsertionOf(s, x).value;
      AirStartedKeeps(s.domain, x, o.token.GetOr(0), s.plays[item], claimedAt);
      assert WasClaimed(o.state) by { PlayedFacts(s, item); }
      var e := n.Executions()[x];
      assert n == WithRow(s, x, e);
      assert StartedBy(n, x, item);
      ForwardKeeps(s, x, e, item);
    }
  }

  lemma PlayedFacts(s: Station, item: LogItemId)
    requires AiringOk(s) && item in s.plays
    ensures Current(s, item) && WasClaimed(RowOf(s, item).state)
  {
    hide InsertionsOk, IssuedOk, PublicationsOk, DecksOk;
  }

  lemma StartedFacts(s: Station, x: ExecutionId) returns (item: LogItemId)
    requires AiringOk(s) && x in s.Executions() && WasStarted(s.Executions()[x].state)
    ensures StartedBy(s, x, item)
  {
    hide InsertionsOk, IssuedOk, PublicationsOk, DecksOk;
    item :| StartedBy(s, x, item);
  }

  lemma EndedAirKeeps(s: Station, x: ExecutionId, clean: bool, endedAt: Time, ms: int, now: Time)
    requires StationOk(s) && x in s.Executions() && s.Executions()[x].state.Started?
    ensures var t := s.Executions()[x].token.GetOr(0);
            StationOk(WithDomain(s, if clean then AirCompleted(s.domain, x, t, endedAt, Some(ms), now).domain
                                    else AirInterrupted(s.domain, x, t, endedAt, Some(ms), now).domain))
  {
    hide DomainOk, AiringOk, ApplyCadence;
    var o := s.Executions()[x];
    var t := o.token.GetOr(0);
    var d := if clean then AirCompleted(s.domain, x, t, endedAt, Some(ms), now).domain
             else AirInterrupted(s.domain, x, t, endedAt, Some(ms), now).domain;
    AirCompletedKeeps(s.domain, x, t, endedAt, Some(ms), now);
    AirInterruptedKeeps(s.domain, x, t, endedAt, Some(ms), now);
    if d != s.domain {
      var item := StartedFacts(s, x);
      var e := o.(state := if clean then Completed else Interrupted, open := false, endedAt := Some(endedAt),
                  terminalAt := Some(now), confirmedMs := Some(ms));
      assert d == ApplyCadence(s.domain.(executions := s.domain.executions[x := e]), x, endedAt, clean);
      ForwardKeeps(s, x, e, item);
      CadenceTouchesNoRow(s, x, e, endedAt, clean);
    }
  }

  lemma CadenceTouchesNoRow(s: Station, x: ExecutionId, e: Execution, anchor: Time, completed: bool)
    requires x in s.Executions() && AiringOk(WithRow(s, x, e))
    ensures AiringOk(WithDomain(s, ApplyCadence(s.domain.(executions := s.domain.executions[x := e]), x, anchor, completed)))
  {
    hide AiringOk;
    var d := ApplyCadence(s.domain.(executions := s.domain.executions[x := e]), x, anchor, completed);
    assert Serviced(WithRow(s, x, e).domain, d);
    ServicedKeeps(WithRow(s, x, e), d);
  }

  lemma SyncEndedKeeps(s: Station, x: ExecutionId, clean: bool, endedAt: Time, ms: int, now: Time)
    requires StationOk(s)
    ensures StationOk(SyncEnded(s, x, clean, endedAt, ms, now))
  {
    hide DomainOk, AiringOk, InsertionOf, AirCompleted, AirInterrupted;
    if SyncEnded(s, x, clean, endedAt, ms, now) != s {
      EndedAirKeeps(s, x, clean, if clean then endedAt else Later(endedAt, s.Executions()[x].startedAt), ms, now);
    }
  }

  lemma BootSettleKeeps(s: Station, x: ExecutionId, token: Token, evidenceAt: Time, ms: int, now: Time)
    requires StationOk(s) && token !in s.issued
    ensures StationOk(BootSettle(s, x, token, evidenceAt, ms, now))
  {
    hide DomainOk, AiringOk, AirCompleted, AirInterrupted, Redispatch, Suppress, StaleNow, Quiet;
    if BootSettle(s, x, token, evidenceAt, ms, now) != s {
      var e := s.Executions()[x];
      if e.state.Started? {
        EndedAirKeeps(s, x, false, Later(evidenceAt, e.startedAt), ms, now);
      } else {
        QuietAtBoot(s, x);
        SuppressKeeps(s, x, now);
        if x in s.publications {
          RedispatchKeeps(s, x, token, now);
        }
      }
    }
  }

  lemma BootSyncKeeps(s: Station, x: ExecutionId, claimedAt: Option<Time>)
    requires StationOk(s)
    ensures StationOk(BootSync(s, x, claimedAt))
  {
    hide DomainOk, AiringOk, SyncStarted, Evidence;
    if s.phase.Booting? {
      SyncStartedKeeps(s, x, claimedAt);
      SyncKeepsPhase(s, x, claimedAt);
      MarkSyncedKeeps(SyncStarted(s, x, claimedAt), x);
    }
  }

  lemma SyncKeepsPhase(s: Station, x: ExecutionId, claimedAt: Option<Time>)
    ensures SyncStarted(s, x, claimedAt).phase == s.phase
  {
    hide Evidence, AirStarted;
  }

  lemma MarkSyncedKeeps(m: Station, x: ExecutionId)
    requires AiringOk(m) && m.phase.Booting?
    requires x in m.Executions() && EngineHeld(m.Executions()[x].state) ==> Evidence(m, x).None?
    ensures AiringOk(m.(phase := Booting(m.phase.synced + {x})))
  {
    var n := m.(phase := Booting(m.phase.synced + {x}));
    assert InsertionsOk(n) && IssuedOk(n) && PublicationsOk(n) by {
      hide AirOk, DecksOk;
      SameTables(m, n);
    }
    assert DecksOk(n) by {
      hide AirOk, InsertionsOk, IssuedOk, PublicationsOk;
      SameDecks(m, n);
    }
    hide DecksOk, IssuedOk, PublicationsOk;
    forall y | y in n.Executions() && WasStarted(n.Executions()[y].state) ensures exists i :: StartedBy(n, y, i) {
      StartedCarries(m, n, y);
    }
    forall i | i in n.plays && Unprojected(n, i) ensures n.insertions[i].execution !in n.phase.synced {
      assert Unprojected(m, i);
      if n.insertions[i].execution == x {
        CurrentIsUnique(m, i, InsertionOf(m, x).value);
      }
    }
  }

  lemma RestartKeeps(s: Station, engine: EngineId)
    requires AiringOk(s) && engine !in s.engines
    ensures AiringOk(Restart(s, engine))
  {
    var n := Restart(s, engine);
    assert InsertionsOk(n) && IssuedOk(n) && PublicationsOk(n) by {
      hide AirOk, DecksOk;
      SameTables(s, n);
    }
    assert AirOk(n) by {
      hide InsertionsOk, IssuedOk, PublicationsOk, DecksOk;
      forall y | y in n.Executions() && WasStarted(n.Executions()[y].state) ensures exists i :: StartedBy(n, y, i) {
        StartedCarries(s, n, y);
      }
    }
    hide AirOk, IssuedOk, PublicationsOk, InsertionsOk;
    forall g, i | DeckOf(n, g, i)
      ensures g in s.engines && i in n.insertions && (i in n.logItems ==> n.logItems[i].claimed)
    {
      assert DeckOf(s, g, i);
    }
    forall g, a, b | DeckOf(n, g, a) && DeckOf(n, g, b) && SameExecution(n, a, b) ensures a == b {
      assert DeckOf(s, g, a) && DeckOf(s, g, b) && SameExecution(s, a, b);
    }
  }
}
