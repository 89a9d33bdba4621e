/** What every reachable state of the station satisfies: which insertion, deck and PlayEvent may exist
    beside which execution row. Superseding an attempt is safe because a row whose attempt may still
    produce air is never rotated, suppressed or failed. */
module PlayoutInvariants {
  import opened Common
  import opened Composition
  import opened Services
  import opened DomainInvariants
  import opened ServiceSteps
  import opened Playout

  // -- the tables --------------------------------------------------------------------------------------------

  ghost predicate InsertionsOk(s: Station) {
    && (forall item :: item in s.insertions ==>
          && s.insertions[item].execution in s.Executions() && s.insertions[item].execution in s.publications
          && s.insertions[item].token in s.issued && s.issued[s.insertions[item].token] == s.insertions[item].execution)
    && (forall a, b :: SameToken(s, a, b) ==> a == b)
    && s.logItems.Keys <= s.insertions.Keys && s.plays.Keys <= s.insertions.Keys
    && (forall item :: item in s.logItems && s.logItems[item].played ==> s.logItems[item].claimed)
    && (forall item :: item in s.logItems && item in s.plays ==> s.logItems[item].played)
  }

  predicate SameToken(s: Station, a: LogItemId, b: LogItemId) {
    a in s.insertions && b in s.insertions && s.insertions[a].token == s.insertions[b].token
  }

  ghost predicate IssuedOk(s: Station) {
    && (forall x :: x in s.Executions() && s.Executions()[x].token.Some? ==>
          s.Executions()[x].token.value in s.issued && s.issued[s.Executions()[x].token.value] == x)
    && (forall c :: c in s.commands ==> c.token in s.issued && s.issued[c.token] == c.execution)
  }

  ghost predicate PublicationsOk(s: Station) {
    forall x :: x in s.publications ==>
      x in s.Executions() && s.Executions()[x].mix == Some(s.publications[x].media)
  }

  // -- decks and air -------------------------------------------------------------------------------------------

  /** The running process was handed the current attempt: it claimed the execution. */
  predicate Handed(s: Station, item: LogItemId) {
    Current(s, item) && WasClaimed(RowOf(s, item).state) && RowOf(s, item).engine == Some(s.engine)
  }

  predicate DeckOf(s: Station, g: EngineId, item: LogItemId) {
    (g, item) in s.decks
  }

  ghost predicate DecksOk(s: Station) {
    && s.engine in s.engines
    && (forall g, item :: DeckOf(s, g, item) ==>
          g in s.engines && item in s.insertions && (item in s.logItems ==> s.logItems[item].claimed))
    && (forall item :: DeckOf(s, s.engine, item) ==> Handed(s, item))
    && (forall g, a, b :: DeckOf(s, g, a) && DeckOf(s, g, b) && SameExecution(s, a, b) ==> a == b)
    && (s.phase.Opening? || s.phase.Building? ==> Handed(s, s.phase.item))
    && (s.phase.Building? && s.phase.item in s.logItems ==> s.logItems[s.phase.item].claimed)
    && (s.phase.Booting? ==> forall item :: !DeckOf(s, s.engine, item))
  }

  predicate SameExecution(s: Station, a: LogItemId, b: LogItemId) {
    a in s.insertions && b in s.insertions && s.insertions[a].execution == s.insertions[b].execution
  }

  predicate StartedBy(s: Station, x: ExecutionId, item: LogItemId) {
    && item in s.plays && Current(s, item) && s.insertions[item].execution == x
    && RowOf(s, item).startedAt == Some(s.plays[item])
  }

  /** The current LogItem of an execution whose row does not show evidence yet. */
  predicate Unprojected(s: Station, item: LogItemId) {
    Current(s, item) && EngineHeld(RowOf(s, item).state)
  }

  ghost predicate AirOk(s: Station) {
    && (forall item :: item in s.plays ==> Current(s, item) && WasClaimed(RowOf(s, item).state))
    && (forall x :: x in s.Executions() && WasStarted(s.Executions()[x].state) ==>
          exists item :: StartedBy(s, x, item))
    && (s.phase.Booting? ==> forall item :: item in s.plays && Unprojected(s, item) ==>
          s.insertions[item].execution !in s.phase.synced)
  }

  ghost predicate AiringOk(s: Station) {
    InsertionsOk(s) && IssuedOk(s) && PublicationsOk(s) && DecksOk(s) && AirOk(s)
  }

  ghost predicate StationOk(s: Station) {
    DomainOk(s.domain) && AiringOk(s)
  }

  // -- one insertion at a time -----------------------------------------------------------------------------------

  /** An execution has at most one current LogItem. */
  lemma CurrentIsUnique(s: Station, a: LogItemId, b: LogItemId)
    requires InsertionsOk(s) && Current(s, a) && Current(s, b) && SameExecution(s, a, b)
    ensures a == b
  {
    assert SameToken(s, a, b);
  }

  // -- rows the playout writes --------------------------------------------------------------------------------------

  /** Nothing of the execution can be, or become, audible: none of its LogItems has a PlayEvent, a deck of the
      running process, or the engine's attention. */
  ghost predicate Quiet(s: Station, x: ExecutionId) {
    forall item :: item in s.insertions && s.insertions[item].execution == x ==>
      && item !in s.plays && !DeckOf(s, s.engine, item)
      && (s.phase.Opening? || s.phase.Building? ==> s.phase.item != item)
  }

  /** The row of a quiet execution replaced by one that has not started; the token stays, or is a new one. */
  predicate Superseding(s: Station, x: ExecutionId, e: Execution, n: Station) {
    && x in s.Executions()
    && n == WithRow(s, x, e).(issued := n.issued, commands := n.commands)
    && e.mix == s.Executions()[x].mix && !WasStarted(e.state)
    && (|| (e.token == s.Executions()[x].token && n.issued == s.issued && n.commands == s.commands)
        || (e.token.Some? && e.token.value !in s.issued && n.issued == s.issued[e.token.value := x]
            && n.commands == s.commands + {Command(x, e.token.value)}))
  }

  lemma SupersedingKeeps(s: Station, x: ExecutionId, e: Execution, n: Station)
    requires AiringOk(s) && Quiet(s, x) && Superseding(s, x, e, n)
    ensures AiringOk(n)
  {
    hide DecksOk, AirOk, IssuedOk, InsertionsOk, PublicationsOk, Quiet, Superseding;
    SupersedingKeepsTables(s, x, e, n);
    SupersedingKeepsDecks(s, x, e, n);
    SupersedingKeepsAir(s, x, e, n);
  }

  lemma SupersedingKeepsTables(s: Station, x: ExecutionId, e: Execution, n: Station)
    requires InsertionsOk(s) && IssuedOk(s) && PublicationsOk(s) && Superseding(s, x, e, n)
    ensures InsertionsOk(n) && IssuedOk(n) && PublicationsOk(n)
  {
    assert InsertionsOk(n) by {
      hide IssuedOk, PublicationsOk;
      forall a, b | SameToken(n, a, b) ensures a == b {
        assert SameToken(s, a, b);
      }
    }
    assert PublicationsOk(n) by { hide IssuedOk, InsertionsOk; }
    hide InsertionsOk, PublicationsOk;
    forall c | c in n.commands ensures c.token in n.issued && n.issued[c.token] == c.execution {
      assert c in s.commands || c == Command(x, e.token.value);
    }
  }

  lemma SupersedingKeepsDecks(s: Station, x: ExecutionId, e: Execution, n: Station)
    requires InsertionsOk(s) && DecksOk(s) && Quiet(s, x) && Superseding(s, x, e, n)
    ensures DecksOk(n)
  {
    hide WasClaimed;
    forall item | DeckOf(n, n.engine, item) ensures Handed(n, item) {
      assert DeckOf(s, s.engine, item) && Handed(s, item);
    }
    forall g, item | DeckOf(n, g, item)
      ensures g in n.engines && item in n.insertions && (item in n.logItems ==> n.logItems[item].claimed)
    {
      assert DeckOf(s, g, item);
    }
    forall g, a, b | DeckOf(n, g, a) && DeckOf(n, g, b) && SameExecution(n, a, b) ensures a == b {
      assert DeckOf(s, g, a) && DeckOf(s, g, b) && SameExecution(s, a, b);
    }
    forall item ensures n.phase.Booting? ==> !DeckOf(n, n.engine, item) {
      assert s.phase.Booting? ==> !DeckOf(s, s.engine, item);
    }
  }

  lemma SupersedingKeepsAir(s: Station, x: ExecutionId, e: Execution, n: Station)
    requires InsertionsOk(s) && AirOk(s) && Quiet(s, x) && Superseding(s, x, e, n)
    ensures AirOk(n)
  {
    hide WasClaimed;
    forall item | item in n.plays ensures Current(n, item) && WasClaimed(RowOf(n, item).state) {
      assert Current(s, item) && s.insertions[item].execution != x;
    }
    forall y | y in n.Executions() && WasStarted(n.Executions()[y].state) ensures exists item :: StartedBy(n, y, item) {
      var item :| StartedBy(s, y, item);
      assert StartedBy(n, y, item);
    }
  }

  /** A claimed execution's row moves on with its evidence: same attempt, same process. */
  predicate Forward(s: Station, x: ExecutionId, e: Execution) {
    && x in s.Executions()
    && var o := s.Executions()[x];
    && e.token == o.token && e.engine == o.engine && e.mix == o.mix
    && WasClaimed(o.state) && WasStarted(e.state)
  }

  lemma ForwardKeeps(s: Station, x: ExecutionId, e: Execution, item: LogItemId)
    requires AiringOk(s) && Forward(s, x, e) && StartedBy(WithRow(s, x, e), x, item)
    ensures AiringOk(WithRow(s, x, e))
  {
    hide DecksOk, AirOk, IssuedOk, InsertionsOk, PublicationsOk, Forward, StartedBy;
    ForwardKeepsTables(s, x, e);
    ForwardKeepsDecks(s, x, e);
    ForwardKeepsAir(s, x, e, item);
  }

  lemma ForwardKeepsTables(s: Station, x: ExecutionId, e: Execution)
    requires InsertionsOk(s) && IssuedOk(s) && PublicationsOk(s) && Forward(s, x, e)
    ensures var n := WithRow(s, x, e); InsertionsOk(n) && IssuedOk(n) && PublicationsOk(n)
  {
    var n := WithRow(s, x, e);
    assert InsertionsOk(n) by {
      hide IssuedOk, PublicationsOk;
      forall a, b | SameToken(n, a, b) ensures a == b {
        assert SameToken(s, a, b);
      }
    }
    hide InsertionsOk;
  }

  lemma ForwardKeepsDecks(s: Station, x: ExecutionId, e: Execution)
    requires DecksOk(s) && Forward(s, x, e)
    ensures DecksOk(WithRow(s, x, e))
  {
    var n := WithRow(s, x, e);
    forall item | DeckOf(n, n.engine, item) ensures Handed(n, item) {
      assert DeckOf(s, s.engine, item) && Handed(s, item);
    }
    forall g, item | DeckOf(n, g, item)
      ensures g in n.engines && item in n.insertions && (item in n.logItems ==> n.logItems[item].claimed)
    {
      assert DeckOf(s, g, item);
    }
    forall g, a, b | DeckOf(n, g, a) && DeckOf(n, g, b) && SameExecution(n, a, b) ensures a == b {
      assert DeckOf(s, g, a) && DeckOf(s, g, b) && SameExecution(s, a, b);
    }
    forall item ensures n.phase.Booting? ==> !DeckOf(n, n.engine, item) {
      assert s.phase.Booting? ==> !DeckOf(s, s.engine, item);
    }
  }

  lemma ForwardKeepsAir(s: Station, x: ExecutionId, e: Execution, item: LogItemId)
    requires AirOk(s) && Forward(s, x, e) && StartedBy(WithRow(s, x, e), x, item)
    ensures AirOk(WithRow(s, x, e))
  {
    var n := WithRow(s, x, e);
    forall y | y in n.Executions() && WasStarted(n.Executions()[y].state) ensures exists i :: StartedBy(n, y, i) {
      if y != x {
        var i :| StartedBy(s, y, i);
        assert StartedBy(n, y, i);
      }
    }
  }

  // -- what the domain's own calls leave alone ----------------------------------------------------------------------

  lemma ServicedKeeps(s: Station, d: Domain)
    requires AiringOk(s) && Serviced(s.domain, d)
    ensures AiringOk(WithDomain(s, d))
  {
    hide DecksOk, AirOk, IssuedOk, InsertionsOk, PublicationsOk, Serviced;
    ServicedKeepsTables(s, d);
    ServicedKeepsDecks(s, d);
    ServicedKeepsAir(s, d);
  }

  lemma ServicedKeepsTables(s: Station, d: Domain)
    requires InsertionsOk(s) && IssuedOk(s) && PublicationsOk(s) && Serviced(s.domain, d)
    ensures var n := WithDomain(s, d); InsertionsOk(n) && IssuedOk(n) && PublicationsOk(n)
  {
    var n := WithDomain(s, d);
    assert InsertionsOk(n) by {
      hide IssuedOk, PublicationsOk, OwnRow;
      forall a, b | SameToken(n, a, b) ensures a == b {
        assert SameToken(s, a, b);
      }
    }
    hide InsertionsOk;
    assert PublicationsOk(n) by { hide IssuedOk; }
    hide PublicationsOk;
    forall x | x in n.Executions() && n.Executions()[x].token.Some?
      ensures n.Executions()[x].token.value in n.issued && n.issued[n.Executions()[x].token.value] == x
    {
      assert x in s.Executions() && OwnRow(s.Executions()[x], n.Executions()[x]);
    }
  }

  lemma ServicedKeepsDecks(s: Station, d: Domain)
    requires DecksOk(s) && Serviced(s.domain, d)
    ensures DecksOk(WithDomain(s, d))
  {
    var n := WithDomain(s, d);
    forall item | Handed(s, item) ensures Handed(n, item) {
      assert OwnRow(RowOf(s, item), RowOf(n, item));
    }
    forall item | DeckOf(n, n.engine, item) ensures Handed(n, item) {
      assert DeckOf(s, s.engine, item) && Handed(s, item);
    }
    forall g, item | DeckOf(n, g, item)
      ensures g in n.engines && item in n.insertions && (item in n.logItems ==> n.logItems[item].claimed)
    {
      assert DeckOf(s, g, item);
    }
    forall g, a, b | DeckOf(n, g, a) && DeckOf(n, g, b) && SameExecution(n, a, b) ensures a == b {
      assert DeckOf(s, g, a) && DeckOf(s, g, b) && SameExecution(s, a, b);
    }
    forall item ensures n.phase.Booting? ==> !DeckOf(n, n.engine, item) {
      assert s.phase.Booting? ==> !DeckOf(s, s.engine, item);
    }
  }

  lemma ServicedKeepsAir(s: Station, d: Domain)
    requires AirOk(s) && Serviced(s.domain, d)
    ensures AirOk(WithDomain(s, d))
  {
    var n := WithDomain(s, d);
    forall item | item in n.plays ensures Current(n, item) && WasClaimed(RowOf(n, item).state) && RowOf(n, item) == RowOf(s, item) {
      assert OwnRow(RowOf(s, item), RowOf(n, item));
    }
    forall x | x in n.Executions() && WasStarted(n.Executions()[x].state) ensures exists i :: StartedBy(n, x, i) {
      assert x in s.Executions() && OwnRow(s.Executions()[x], n.Executions()[x]);
      var i :| StartedBy(s, x, i);
      assert StartedBy(n, x, i);
    }
  }
}
