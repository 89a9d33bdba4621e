/** The playout's transactions as they run (active_messages/playout.py): rows rotated, claimed, suppressed and
    projected in place, each shown to take exactly the station's step. */
module Engine {
  import opened Common
  import opened Composition
  import opened Services
  import opened DomainInvariants
  import opened ServiceSteps
  import opened Playout
  import opened PlayoutInvariants
  import opened PlayoutSteps
  import opened Runs
  import opened StartUp

  class Airings {
    var domain: Domain
    var publications: map<ExecutionId, Publication>
    var insertions: map<LogItemId, Insertion>
    var logItems: map<LogItemId, LogItem>
    var plays: map<LogItemId, Time>
    var engine: EngineId
    var phase: Phase
    const available: bool
    /** History the station does not store: tokens handed out, commands sent, processes, decks. */
    ghost var issued: map<Token, ExecutionId>
    ghost var commands: set<Command>
    ghost var engines: set<EngineId>
    ghost var decks: set<(EngineId, LogItemId)>

    ghost function St(): Station
      reads this
    {
      Station(domain, publications, insertions, logItems, plays, issued, commands, engine, engines, phase, decks, available)
    }

    ghost predicate Valid()
      reads this
    {
      StationOk(St())
    }

    /** A station before anything happened, its first engine process starting up. */
    constructor (policy: Policy, engine: EngineId, available: bool)
      requires PolicyOk(policy)
      ensures Valid() && Initial(St()) && St().domain.policy == policy && this.engine == engine
    {
      domain := Domain(policy, map[], map[], map[], map[], map[], map[]);
      publications, insertions, logItems, plays := map[], map[], map[], map[];
      this.engine, this.available, phase := engine, available, Booting({});
      issued, commands, engines, decks := map[], {}, {engine}, {};
      new;
      InitialOk(St());
    }

    method WriteRow(x: ExecutionId, e: Execution)
      modifies `domain
      ensures St() == WithRow(old(St()), x, e)
    {
      domain := domain.(executions := domain.executions[x := e]);
    }

    method SuppressRow(x: ExecutionId, now: Time)
      requires x in domain.executions
      modifies `domain
      ensures St() == Suppress(old(St()), x, now)
    {
      WriteRow(x, Finished(domain.executions[x], Suppressed, StaleGeneration, now));
    }

    function Gate(): bool
      reads this
    {
      available && domain.policy.enabled
    }

    function IsStale(e: Execution): bool
      reads this
    {
      e.generation != domain.policy.generation || !Gate()
    }

    /** `_new_attempt`; the token when its command was queued. */
    method RotateAttempt(x: ExecutionId, token: Token, now: Time) returns (sent: Option<Token>)
      requires x in domain.executions
      modifies `domain, `issued, `commands
      ensures St() == NewAttempt(old(St()), x, token, now)
      ensures sent == if old(domain).executions[x].attempts >= MAX_ATTEMPTS then None else Some(token)
      ensures sent.Some? ==> sent.value == token && issued == old(issued)[token := x]
      ensures sent.Some? ==> commands == old(commands) + {Command(x, token)}
      ensures sent.None? ==> issued == old(issued) && commands == old(commands)
    {
      var e := domain.executions[x];
      if e.attempts >= MAX_ATTEMPTS {
        WriteRow(x, Finished(e, Failed, DispatchExhausted, now));
        return None;
      }
      WriteRow(x, Rotated(e, token, now));
      issued := issued[token := x];
      commands := commands + {Command(x, token)};
      sent := Some(token);
    }

    /** `_redispatch`. */
    method RedispatchRow(x: ExecutionId, token: Token, now: Time) returns (sent: Option<Token>)
      requires x in domain.executions && x in publications
      modifies `domain, `issued, `commands
      ensures St() == Redispatch(old(St()), x, token, now)
      ensures sent.Some? ==> sent.value == token && issued == old(issued)[token := x]
      ensures sent.Some? ==> commands == old(commands) + {Command(x, token)}
      ensures sent.None? ==> issued == old(issued) && commands == old(commands)
    {
      if !Insertable(publications[x]) {
        WriteRow(x, Finished(domain.executions[x], Failed, PublicationUnavailable, now));
        return None;
      }
      sent := RotateAttempt(x, token, now);
    }

    /** `dispatch`. */
    method DispatchReady(x: ExecutionId, token: Token, now: Time) returns (sent: Option<Token>)
      modifies `domain, `issued, `commands
      ensures St() == Dispatch(old(St()), x, token, now)
      ensures sent.Some? ==> sent.value == token && issued == old(issued)[token := x]
      ensures sent.Some? ==> commands == old(commands) + {Command(x, token)}
      ensures sent.None? ==> issued == old(issued) && commands == old(commands)
    {
      sent := None;
      if x in domain.executions {
        var e := domain.executions[x];
        if e.state.Ready? && !IsStale(e) && x in publications && !InFlight(e, now) {
          sent := RedispatchRow(x, token, now);
        }
      }
    }

    // -- correlation ------------------------------------------------------------------------------------------------

    /** Is this attempt already inserted? */
    method TokenIsInserted(token: Token) returns (found: bool)
      ensures found <==> InsertedToken(St(), token)
    {
      found := false;
      var rest := insertions.Keys;
      while rest != {} && !found
        invariant rest <= insertions.Keys
        invariant found ==> InsertedToken(St(), token)
        invariant !found ==> forall item :: item in insertions && item !in rest ==> insertions[item].token != token
        decreases |rest|
      {
        var item :| item in rest;
        if insertions[item].token == token { found := true; }
        rest := rest - {item};
      }
    }

    /** The insertion of the execution's current attempt. */
    method FindInsertion(x: ExecutionId) returns (item: Option<LogItemId>)
      requires InsertionsOk(St()) && x in domain.executions
      ensures item == InsertionOf(St(), x)
    {
      item := None;
      var rest := insertions.Keys;
      while rest != {} && item.None?
        invariant rest <= insertions.Keys
        invariant item.None? ==> forall i :: i in insertions && i !in rest && Current(St(), i) ==> insertions[i].execution != x
        invariant item.Some? ==> Current(St(), item.value) && insertions[item.value].execution == x
        decreases |rest|
      {
        var i :| i in rest;
        if insertions[i].execution == x && domain.executions[x].token == Some(insertions[i].token) { item := Some(i); }
        rest := rest - {i};
      }
      if item.Some? && InsertionOf(St(), x).Some? {
        CurrentIsUnique(St(), item.value, InsertionOf(St(), x).value);
      }
    }

    // -- the engine's side ------------------------------------------------------------------------------------------

    /** `admit`. */
    method Admit(c: Command, category: bool) returns (admitted: bool)
      ensures admitted <==> Admits(St(), c, category)
    {
      if c.execution !in domain.executions { return false; }
      var e := domain.executions[c.execution];
      if e.token != Some(c.token) { return false; }
      var duplicate := TokenIsInserted(c.token);
      if duplicate || !(e.state.Ready? || EngineHeld(e.state)) || IsStale(e) { return false; }
      if c.execution !in publications || !publications[c.execution].trackLive { return false; }
      admitted := MediaId(e.mix) == Some(publications[c.execution].media.id) && category;
    }

    /** The splice transaction: `admit` and `record_insertion`. */
    method InsertCommand(c: Command, item: LogItemId, category: bool, now: Time) returns (inserted: bool)
      modifies `domain, `insertions, `logItems
      ensures St() == Deliver(old(St()), c, item, category, now)
      ensures inserted <==> Admits(old(St()), c, category)
    {
      hide Admits;
      inserted := Admit(c, category);
      if inserted {
        assert c.execution in domain.executions by { AdmittedRow(St(), c, category); }
        var e := domain.executions[c.execution];
        insertions := insertions[item := Insertion(c.execution, c.token, engine)];
        logItems := logItems[item := LogItem(false, false)];
        WriteRow(c.execution, AcceptedRow(e, engine, now));
      }
    }

    /** `_judge`. */
    method JudgeItem(item: LogItemId, named: bool) returns (allowed: bool)
      ensures allowed <==> Judge(St(), item, named)
    {
      if !named || item !in insertions || insertions[item].execution !in domain.executions { return false; }
      var x := insertions[item].execution;
      var e := domain.executions[x];
      if e.token != Some(insertions[item].token) || !Gate() { return false; }
      if e.state.Accepted? {
        return e.generation == domain.policy.generation && x in publications &&
               MediaId(e.mix) == Some(publications[x].media.id);
      }
      allowed := (e.state.Claimed? || e.state.Started?) && e.engine == Some(engine);
    }

    /** `authorize_open`. */
    method Authorize(item: LogItemId, named: bool, now: Time) returns (allowed: bool)
      modifies `domain, `phase
      ensures St() == AuthorizeOpen(old(St()), item, named, now)
      ensures allowed ==> St().phase == Opening(item)
      ensures !allowed ==> phase == old(phase)
    {
      hide Suppress, GateOpen;
      allowed := JudgeItem(item, named);
      if !allowed {
        if item in insertions && insertions[item].execution in domain.executions {
          var x := insertions[item].execution;
          var e := domain.executions[x];
          if e.token == Some(insertions[item].token) && e.state.Accepted? && e.generation != domain.policy.generation {
            SuppressRow(x, now);
          }
        }
        return;
      }
      var x := insertions[item].execution;
      var e := domain.executions[x];
      if e.state.Accepted? {
        if item !in logItems { return false; }
        WriteRow(x, ClaimedRow(e, engine, now));
      }
      phase := Opening(item);
    }

    /** `report_not_aired`. */
    method ReportItem(item: LogItemId, token: Token, now: Time) returns (sent: Option<Token>)
      modifies `domain, `issued, `commands
      ensures St() == ReportNotAired(old(St()), item, token, now)
      ensures sent.Some? ==> item in insertions && sent.value == token
      ensures sent.Some? ==> issued == old(issued)[token := insertions[item].execution]
      ensures sent.Some? ==> commands == old(commands) + {Command(insertions[item].execution, token)}
      ensures sent.None? ==> issued == old(issued) && commands == old(commands)
    {
      hide Redispatch, Suppress;
      sent := None;
      if item !in insertions || insertions[item].execution !in domain.executions { return; }
      var x := insertions[item].execution;
      var e := domain.executions[x];
      if e.token != Some(insertions[item].token) { return; }
      if !EngineHeld(e.state) || e.startedAt.Some? || item in plays { return; }
      if e.state.Claimed? {
        if e.engine != Some(engine) || item !in logItems || logItems[item].claimed || logItems[item].played { return; }
      }
      if IsStale(e) {
        SuppressRow(x, now);
      } else if x in publications {
        sent := RedispatchRow(x, token, now);
      }
    }

    // -- evidence ---------------------------------------------------------------------------------------------------

    /** `sync_evidence`: STARTED from the PlayEvent. */
    method ProjectStart(x: ExecutionId, claimedAt: Option<Time>)
      requires InsertionsOk(St())
      modifies `domain
      ensures St() == SyncStarted(old(St()), x, claimedAt)
    {
      hide InsertionOf;
      if x in domain.executions && EngineHeld(domain.executions[x].state) {
        var item := FindInsertion(x);
        if item.Some? && item.value in plays {
          domain := AirStarted(domain, x, domain.executions[x].token.GetOr(0), plays[item.value], claimedAt).domain;
        }
      }
    }

    /** `_engine_held_step`. */
    method StepHeld(x: ExecutionId, token: Token, now: Time) returns (sent: Option<Token>)
      requires InsertionsOk(St())
      modifies `domain, `issued, `commands
      ensures St() == HeldStep(old(St()), x, token, now)
      ensures sent.Some? ==> sent.value == token && issued == old(issued)[token := x]
      ensures sent.Some? ==> commands == old(commands) + {Command(x, token)}
      ensures sent.None? ==> issued == old(issued) && commands == old(commands)
    {
      hide InsertionOf, Redispatch, Suppress, InFlight, InsertionsOk;
      sent := None;
      if x !in domain.executions || !EngineHeld(domain.executions[x].state) { return; }
      var e := domain.executions[x];
      var item := FindInsertion(x);
      if IsStale(e) && (e.state.Accepted? || item.None?) {
        SuppressRow(x, now);
      } else if item.None? {
        if !InFlight(e, now) && x in publications { sent := RedispatchRow(x, token, now); }
      } else if e.state.Accepted? && item.value !in logItems && x in publications {
        sent := RedispatchRow(x, token, now);
      }
    }

    // -- start-up ---------------------------------------------------------------------------------------------------

    method ProjectAtBoot(x: ExecutionId, claimedAt: Option<Time>)
      requires InsertionsOk(St()) && phase.Booting?
      modifies `domain, `phase
      ensures St() == BootSync(old(St()), x, claimedAt)
    {
      hide InsertionsOk, SyncStarted;
      ProjectStart(x, claimedAt);
      phase := Booting(phase.synced + {x});
    }

    /** What `engine_started` does with a projected execution of another process. */
    method SettleHeld(x: ExecutionId, token: Token, evidenceAt: Time, ms: nat, now: Time)
      requires phase.Booting? && x in phase.synced
      modifies `domain, `issued, `commands
      ensures St() == BootSettle(old(St()), x, token, evidenceAt, ms, now)
    {
      hide Redispatch, Suppress, AirInterrupted;
      if x !in domain.executions || domain.executions[x].engine == Some(engine) { return; }
      var e := domain.executions[x];
      if e.state.Started? && e.token.Some? {
        domain := AirInterrupted(domain, x, e.token.value, Later(evidenceAt, e.startedAt), Some(ms), now).domain;
      } else if EngineHeld(e.state) {
        if IsStale(e) {
          SuppressRow(x, now);
        } else if x in publications {
          var _ := RedispatchRow(x, token, now);
        }
      }
    }

    /** One turn of `engine_started`: project, then end, suppress or rotate what an earlier process held. */
    method SettleOne(x: ExecutionId, token: Token, claimedAt: Option<Time>, evidenceAt: Time, ms: nat, now: Time)
      requires Valid() && phase.Booting? && token !in issued
      modifies `domain, `issued, `commands, `phase
      ensures Valid() && phase.Booting? && engine == old(engine) && insertions == old(insertions)
      ensures domain.executions.Keys == old(domain).executions.Keys
      ensures forall y :: y in domain.executions && y != x ==> domain.executions[y] == old(domain).executions[y]
      ensures issued.Keys <= old(issued).Keys + {token}
      ensures x in domain.executions ==> SettledRow(St(), x)
    {
      BootSyncKeeps(St(), x, claimedAt);
      BootSyncWrites(St(), x, claimedAt);
      InsertionsHold(St());
      ProjectAtBoot(x, claimedAt);
      hide StationOk, BootSync, BootSettle, InsertionsOk;
      BootSettleKeeps(St(), x, token, evidenceAt, ms, now);
      BootSettleWrites(St(), x, token, evidenceAt, ms, now);
      SettleHeld(x, token, evidenceAt, ms, now);
    }

    /** `engine_started`, each execution with what its own ledger shows: afterwards no LogItem spliced for an earlier
        process can play, and nothing an earlier process had on air is still said to be. (What others do between its
        transactions changes none of that: `StartUp.StartUpSettles`.) */
    method EngineStarted(order: seq<ExecutionId>, tokens: seq<Token>, ledgers: seq<Ledger>, now: Time)
      requires Valid() && phase.Booting?
      requires forall x :: x in domain.executions && Taken(domain.executions[x]) ==> x in order
      requires |tokens| == |ledgers| == |order| && (forall i :: 0 <= i < |tokens| ==> tokens[i] !in issued)
      requires forall i, j :: 0 <= i < j < |tokens| ==> tokens[i] != tokens[j]
      requires forall i, j :: 0 <= i < j < |order| ==> order[i] != order[j]
      modifies `domain, `issued, `commands, `phase
      ensures Valid() && phase.Idle?
      ensures domain.executions.Keys == old(domain).executions.Keys
      ensures forall x :: x in domain.executions ==> SettledRow(St(), x)
      ensures forall x :: x in domain.executions && x !in order ==> domain.executions[x] == old(domain).executions[x]
    {
      hide StationOk, SettledRow;
      ghost var start := St();
      for i := 0 to |order|
        invariant Valid() && phase.Booting? && engine == old(engine) && insertions == old(insertions)
        invariant domain.executions.Keys == old(domain).executions.Keys
        invariant forall k :: i <= k < |tokens| ==> tokens[k] !in issued
        invariant forall k :: 0 <= k < i && order[k] in domain.executions ==> SettledRow(St(), order[k])
        invariant forall x :: x in domain.executions && x !in order ==> domain.executions[x] == old(domain).executions[x]
      {
        ghost var was := St();
        SettleOne(order[i], tokens[i], ledgers[i].claimedAt, ledgers[i].endedAt, ledgers[i].ms, now);
        forall k | 0 <= k < i && order[k] in domain.executions ensures SettledRow(St(), order[k]) {
          SameRowSettled(was, St(), order[k]);
        }
      }
      ghost var booted := St();
      FinishBoot(booted);
      phase := Idle;
      forall x | x in domain.executions ensures SettledRow(St(), x) {
        if x !in order {
          FreeRowSettled(start, x);
          UntouchedSettled(start, booted, x);
        }
        SameRowSettled(booted, St(), x);
      }
    }
  }

  /** What the deck's ledger shows of one airing: its playback claim, its last evidence, and how much was heard. */
  datatype Ledger = Ledger(claimedAt: Option<Time>, endedAt: Time, ms: nat)

  lemma UntouchedSettled(s: Station, n: Station, x: ExecutionId)
    requires x in s.Executions() && SettledIfThere(s, x) && x in n.Executions()
    requires n.Executions()[x] == s.Executions()[x] && n.insertions == s.insertions && n.engine == s.engine
    ensures SettledRow(n, x)
  {
    SameRowSettled(s, n, x);
  }

  lemma AdmittedRow(s: Station, c: Command, category: bool)
    requires Admits(s, c, category)
    ensures c.execution in s.Executions()
  {
  }
}
