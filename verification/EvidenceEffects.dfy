/** What recorded air does to the station, stated on its tables alone: when an execution is started and ended by its
    evidence, when its messages are due again, and what a new engine process does with what an earlier one left. */
module EvidenceEffects {
  import opened Common
  import opened Composition
  import opened Services
  import opened DomainInvariants
  import opened ServiceSteps
  import opened Playout
  import opened PlayoutInvariants
  import opened PlayoutEffects
  import Attempts
  import PlayoutSteps

  // -- an airing starts ---------------------------------------------------------------------------------------------

  ghost predicate HasAir(s: Station, x: ExecutionId) {
    exists item :: AirsAs(s, x, item)
  }

  /** The PlayEvent of the LogItem spliced for the execution's current token. */
  ghost predicate AirsAs(s: Station, x: ExecutionId, item: LogItemId) {
    SplicedAs(s, x, item) && item in s.plays
  }

  predicate StartsAt(s: Station, n: Station, x: ExecutionId, at: Time, claimedAt: Option<Time>)
    requires x in s.domain.executions
  {
    var e := s.domain.executions[x];
    var claimed := if e.claimedAt.Some? then e.claimedAt else if claimedAt.Some? then claimedAt else Some(at);
    OneRow(s, n, x, e.(state := Started, startedAt := Some(at), claimedAt := claimed))
  }

  /** A held execution whose current LogItem has a PlayEvent is started at that time; any other is left. */
  ghost predicate StartsFromEvidence(s: Station, n: Station, x: ExecutionId, claimedAt: Option<Time>) {
    if Held(s, x) && HasAir(s, x) then forall item :: AirsAs(s, x, item) ==> StartsAt(s, n, x, s.plays[item], claimedAt)
    else n == s
  }

  lemma SyncDoes(s: Station, x: ExecutionId, claimedAt: Option<Time>)
    requires StationOk(s)
    ensures StartsFromEvidence(s, SyncStarted(s, x, claimedAt), x, claimedAt)
  {
    hide StationOk, DomainOk, AiringOk, InsertionOf, SplicedAs, StartsAt, AirStarted;
    TokenIsSpliced(s, x);
    if Held(s, x) && InsertionOf(s, x).Some? && InsertionOf(s, x).value in s.plays {
      var item := InsertionOf(s, x).value;
      assert AirsAs(s, x, item);
      SplicedToken(s, x, item);
      StartedAt(s, x, s.domain.executions[x].token.value, s.plays[item], claimedAt);
    }
  }

  lemma StartedAt(s: Station, x: ExecutionId, token: Token, at: Time, claimedAt: Option<Time>)
    requires Held(s, x) && s.domain.executions[x].token == Some(token)
    ensures StartsAt(s, WithDomain(s, AirStarted(s.domain, x, token, at, claimedAt).domain), x, at, claimedAt)
  {
  }

  /** Evidence starts an execution, in the worker's pass and in the pass of a new engine process alike. */
  lemma StartDoes(s: Station, x: ExecutionId, claimedAt: Option<Time>, now: Time)
    requires StationOk(s)
    ensures StartsFromEvidence(s, Next(s, EvidenceStarted(x, claimedAt), now), x, claimedAt)
    ensures var n := Next(s, BootSynced(x, claimedAt), now);
            if s.phase.Booting? then
              n.phase == Booting(s.phase.synced + {x}) && StartsFromEvidence(s, n.(phase := s.phase), x, claimedAt)
            else n == s
  {
    hide StationOk, DomainOk, AiringOk, SyncStarted, StartsFromEvidence;
    SyncDoes(s, x, claimedAt);
    if s.phase.Booting? {
      PlayoutSteps.SyncKeepsPhase(s, x, claimedAt);
      assert SyncStarted(s, x, claimedAt).(phase := s.phase) == SyncStarted(s, x, claimedAt);
    }
  }

  lemma SplicedToken(s: Station, x: ExecutionId, item: LogItemId)
    requires SplicedAs(s, x, item)
    ensures s.domain.executions[x].token.Some?
  {
  }

  // -- an airing ends -----------------------------------------------------------------------------------------------

  /** The ACTIVE messages the airing contained. */
  predicate TookPart(d: Domain, x: ExecutionId, m: MessageId)
    requires x in d.executions && m in d.messages
  {
    d.messages[m].state.Active? && exists c :: c in d.executions[x].snapshot.components && c.message == m
  }

  /** The airing ended at `at`: its row is closed, each ACTIVE message it contained is due one interval later, and no other
      row changes; a completed airing is also the last completed one of its messages. */
  ghost predicate EndsAiringAt(s: Station, n: Station, x: ExecutionId, state: ExecutionState, at: Time, ms: int, now: Time)
    requires x in s.domain.executions
  {
    var d, e := s.domain, s.domain.executions[x];
    && n == s.(domain := n.domain)
    && n.domain == d.(executions := d.executions[x := e.(state := state, open := false, endedAt := Some(at),
                                                          terminalAt := Some(now), confirmedMs := Some(ms))],
                      messages := n.domain.messages, airedIn := n.domain.airedIn)
    && n.domain.messages.Keys == d.messages.Keys
    && (forall m :: m in d.messages ==>
          n.domain.messages[m] ==
            if TookPart(d, x, m) then
              d.messages[m].(nextDueAt := Some(at + d.messages[m].interval.GetOr(0) * 1000000),
                             lastCompletedAt := if state.Completed? then Some(at) else d.messages[m].lastCompletedAt)
            else d.messages[m])
    && (forall m :: m in n.domain.airedIn <==> m in d.airedIn || (m in d.messages && TookPart(d, x, m)))
    && (forall m :: m in n.domain.airedIn ==>
          n.domain.airedIn[m] == if m in d.messages && TookPart(d, x, m) then x else d.airedIn[m])
  }

  /** A started execution ends by its ledger: completed when the ledger is clean and not before its start, interrupted at the
      later of its last evidence and its start otherwise. */
  ghost predicate EndsByLedger(s: Station, n: Station, x: ExecutionId, clean: bool, endedAt: Time, ms: int, now: Time) {
    if !(x in s.domain.executions && s.domain.executions[x].state.Started? && s.domain.executions[x].startedAt.Some?) then n == s
    else
      var startedAt := s.domain.executions[x].startedAt.value;
      if ms < 0 || (clean && endedAt < startedAt) then n == s
      else if clean then EndsAiringAt(s, n, x, Completed, endedAt, ms, now)
      else EndsAiringAt(s, n, x, Interrupted, if startedAt > endedAt then startedAt else endedAt, ms, now)
  }

  lemma CompletedEnds(s: Station, x: ExecutionId, token: Token, at: Time, ms: int, now: Time)
    requires x in s.domain.executions && s.domain.executions[x].state.Started?
    requires s.domain.executions[x].token == Some(token)
    requires s.domain.executions[x].startedAt.Some? && s.domain.executions[x].startedAt.value <= at && ms >= 0
    ensures EndsAiringAt(s, WithDomain(s, AirCompleted(s.domain, x, token, at, Some(ms), now).domain), x, Completed, at, ms, now)
  {
  }

  lemma InterruptedEnds(s: Station, x: ExecutionId, token: Token, at: Time, ms: int, now: Time)
    requires x in s.domain.executions && s.domain.executions[x].state.Started?
    requires s.domain.executions[x].token == Some(token)
    requires s.domain.executions[x].startedAt.Some? && s.domain.executions[x].startedAt.value <= at && ms >= 0
    ensures EndsAiringAt(s, WithDomain(s, AirInterrupted(s.domain, x, token, at, Some(ms), now).domain), x, Interrupted, at, ms,
                         now)
  {
  }

  lemma StartedFacts(s: Station, x: ExecutionId) returns (item: LogItemId)
    requires StationOk(s) && x in s.domain.executions && s.domain.executions[x].state.Started?
    ensures AirsAs(s, x, item) && s.domain.executions[x].token.Some? && s.domain.executions[x].startedAt.Some?
    ensures Evidence(s, x).Some?
  {
    hide DomainOk;
    item := PlayoutSteps.StartedFacts(s, x);
    TokenIsSpliced(s, x);
    hide AiringOk;
  }

  /** The ledger of the deck ends the airing. */
  lemma EndDoes(s: Station, x: ExecutionId, clean: bool, endedAt: Time, ms: int, now: Time)
    requires StationOk(s)
    ensures EndsByLedger(s, Next(s, EvidenceEnded(x, clean, endedAt, ms), now), x, clean, endedAt, ms, now)
  {
    hide StationOk, DomainOk, AiringOk, EndsAiringAt, Evidence, ApplyCadence;
    if x in s.domain.executions && s.domain.executions[x].state.Started? {
      var item := StartedFacts(s, x);
      var e := s.domain.executions[x];
      var at := if e.startedAt.value > endedAt then e.startedAt.value else endedAt;
      if ms >= 0 && clean && endedAt >= e.startedAt.value {
        CompletedEnds(s, x, e.token.value, endedAt, ms, now);
      }
      if ms >= 0 && !clean {
        InterruptedEnds(s, x, e.token.value, at, ms, now);
      }
    }
  }

  // -- a new engine process -----------------------------------------------------------------------------------------

  /** What an execution of an earlier process becomes: interrupted at its last evidence when it was on air; suppressed when it
      is stale; else sent again. The process's own, and those the engine never held, are left. */
  ghost predicate Settles(s: Station, n: Station, x: ExecutionId, token: Token, evidenceAt: Time, ms: int, now: Time) {
    if !(s.phase.Booting? && x in s.phase.synced && x in s.domain.executions) then n == s
    else
      var e := s.domain.executions[x];
      if e.engine == Some(s.engine) then n == s
      else if e.state.Started? then EndsByLedger(s, n, x, false, evidenceAt, ms, now)
      else if !Held(s, x) then n == s
      else if !PlayoutEffects.Airable(s, e) then EndedAs(s, n, x, Suppressed, StaleGeneration, now)
      else if x in s.publications then SentAgain(s, n, x, token, now)
      else n == s
  }

  /** Start-up settles each execution whose evidence it has projected. */
  lemma SettleDoes(s: Station, x: ExecutionId, token: Token, evidenceAt: Time, ms: int, now: Time)
    requires StationOk(s) && Enabled(s, BootSettled(x, token, evidenceAt, ms))
    ensures Settles(s, Next(s, BootSettled(x, token, evidenceAt, ms), now), x, token, evidenceAt, ms, now)
  {
    hide StationOk, DomainOk, AiringOk, EndsAiringAt, Evidence, ApplyCadence;
    if x in s.domain.executions && s.domain.executions[x].state.Started? {
      var item := StartedFacts(s, x);
      var e := s.domain.executions[x];
      var at := if e.startedAt.value > evidenceAt then e.startedAt.value else evidenceAt;
      if ms >= 0 {
        InterruptedEnds(s, x, e.token.value, at, ms, now);
      }
    }
  }
}
