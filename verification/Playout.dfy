/** The active-message airing protocol: the domain, the worker, and the playback engine that inserts,
    claims, plays and reports (active_messages/playout.py with the engine's deck-open sequence in
    library/services/engine.py). Every transaction under the policy lock is one atomic step; commands
    may be lost, delayed or delivered again, LogItems and Tracks deleted, and the engine restarted,
    between any two of them. */
module Playout {
  import opened Common
  import opened Composition
  import opened Services

  const DISPATCH_TIMEOUT: Time := 60 * SECOND
  const MAX_ATTEMPTS := 50

  /** The library representation of one execution: whose bytes it is, and what remains of it. */
  datatype Publication = Publication(media: Media, trackLive: bool, filePresent: bool)
  /** One LogItem spliced for one attempt. */
  datatype Insertion = Insertion(execution: ExecutionId, token: Token, engine: EngineId)
  datatype LogItem = LogItem(claimed: bool, played: bool)
  datatype Command = Command(execution: ExecutionId, token: Token)

  /** What the engine's one thread is in the middle of. `Opening`: deck-open authority was granted.
      `Building`: the playback claim committed too. `Booting`: start-up reconciliation, with the
      executions whose evidence it has projected so far. */
  datatype Phase = Idle | Opening(item: LogItemId) | Building(item: LogItemId) | Booting(synced: set<ExecutionId>)

  /** The whole station. `insertions`, `plays` and `publications` are never deleted; `logItems` are.
      `issued`, `commands`, `engines` and `decks` are history: every token handed out, every command
      sent, every engine process, every deck a process ever built. */
  datatype Station = Station(domain: Domain, publications: map<ExecutionId, Publication>,
                             insertions: map<LogItemId, Insertion>, logItems: map<LogItemId, LogItem>,
                             plays: map<LogItemId, Time>, issued: map<Token, ExecutionId>, commands: set<Command>,
                             engine: EngineId, engines: set<EngineId>, phase: Phase,
                             decks: set<(EngineId, LogItemId)>, available: bool)
  {
    function Executions(): map<ExecutionId, Execution> {
      domain.executions
    }
  }

  function WithDomain(s: Station, d: Domain): Station {
    s.(domain := d)
  }

  function WithRow(s: Station, x: ExecutionId, e: Execution): Station {
    WithDomain(s, s.domain.(executions := s.domain.executions[x := e]))
  }

  predicate GateOpen(s: Station) {
    s.available && s.domain.policy.enabled
  }

  predicate StaleNow(s: Station, e: Execution) {
    e.generation != s.domain.policy.generation || !GateOpen(s)
  }

  // -- publication ----------------------------------------------------------------------------------------

  /** `publish` succeeded: it read a READY row earlier; the mix it placed never changes afterwards. */
  function Publish(s: Station, x: ExecutionId): Station {
    if x !in s.Executions() || s.Executions()[x].mix.None? || x in s.publications then s
    else s.(publications := s.publications[x := Publication(s.Executions()[x].mix.value, true, true)])
  }

  predicate PermanentCode(code: FailureCode) {
    code.AggregateUnavailable? || code.DestinationConflict?
  }

  /** A permanent publication failure of a still READY execution. */
  function PublicationFails(s: Station, x: ExecutionId, code: FailureCode, now: Time): Station {
    if x !in s.Executions() || !s.Executions()[x].state.Ready? || !PermanentCode(code) then s
    else WithRow(s, x, Finished(s.Executions()[x], Failed, code, now))
  }

  // -- attempts ---------------------------------------------------------------------------------------------

  function Rotated(e: Execution, token: Token, now: Time): Execution {
    e.(token := Some(token), dispatchedAt := Some(now), attempts := e.attempts + 1)
  }

  /** `_new_attempt`. */
  function NewAttempt(s: Station, x: ExecutionId, token: Token, now: Time): Station
    requires x in s.Executions()
  {
    var e := s.Executions()[x];
    if e.attempts >= MAX_ATTEMPTS then WithRow(s, x, Finished(e, Failed, DispatchExhausted, now))
    else WithRow(s, x, Rotated(e, token, now)).(issued := s.issued[token := x],
                                                commands := s.commands + {Command(x, token)})
  }

  predicate Insertable(p: Publication) {
    p.trackLive && p.filePresent
  }

  /** `_redispatch`: a deleted Track or missing file fails the execution instead. */
  function Redispatch(s: Station, x: ExecutionId, token: Token, now: Time): Station
    requires x in s.Executions() && x in s.publications
  {
    if !Insertable(s.publications[x]) then WithRow(s, x, Finished(s.Executions()[x], Failed, PublicationUnavailable, now))
    else NewAttempt(s, x, token, now)
  }

  predicate InFlight(e: Execution, now: Time) {
    e.dispatchedAt.Some? && now - e.dispatchedAt.value < DISPATCH_TIMEOUT
  }

  /** `dispatch`. */
  function Dispatch(s: Station, x: ExecutionId, token: Token, now: Time): Station {
    if x !in s.Executions() then s
    else
      var e := s.Executions()[x];
      if !e.state.Ready? || StaleNow(s, e) || x !in s.publications || InFlight(e, now) then s
      else Redispatch(s, x, token, now)
  }

  function Suppress(s: Station, x: ExecutionId, now: Time): Station
    requires x in s.Executions()
  {
    WithRow(s, x, Finished(s.Executions()[x], Suppressed, StaleGeneration, now))
  }

  // -- insertion --------------------------------------------------------------------------------------------

  predicate InsertedToken(s: Station, token: Token) {
    exists item :: item in s.insertions && s.insertions[item].token == token
  }

  function MediaId(media: Option<Media>): Option<nat> {
    if media.Some? then Some(media.value.id) else None
  }

  /** `admit`: may this command splice its Track now? `category` says the UrgentPA category exists. */
  predicate Admits(s: Station, c: Command, category: bool) {
    && c.execution in s.Executions()
    && var e := s.Executions()[c.execution];
    && e.token == Some(c.token) && !InsertedToken(s, c.token)
    && (e.state.Ready? || EngineHeld(e.state))
    && !StaleNow(s, e)
    && c.execution in s.publications && s.publications[c.execution].trackLive
    && MediaId(e.mix) == Some(s.publications[c.execution].media.id)
    && category
  }

  function AcceptedRow(e: Execution, engine: EngineId, now: Time): Execution {
    e.(state := Accepted, acceptedAt := Some(now), engine := Some(engine))
  }

  /** A command reaches the engine: `admit` and `record_insertion` in the splice transaction, which also
      creates the LogItem. */
  function Deliver(s: Station, c: Command, item: LogItemId, category: bool, now: Time): Station {
    if !Admits(s, c, category) then s
    else WithRow(s, c.execution, AcceptedRow(s.Executions()[c.execution], s.engine, now)).(
           insertions := s.insertions[item := Insertion(c.execution, c.token, s.engine)],
           logItems := s.logItems[item := LogItem(false, false)])
  }

  // -- deck-open authority -------------------------------------------------------------------------------------

  /** The insertion of its execution's current attempt. */
  predicate Current(s: Station, item: LogItemId) {
    && item in s.insertions && s.insertions[item].execution in s.Executions()
    && s.Executions()[s.insertions[item].execution].token == Some(s.insertions[item].token)
  }

  function RowOf(s: Station, item: LogItemId): Execution
    requires item in s.insertions && s.insertions[item].execution in s.Executions()
  {
    s.Executions()[s.insertions[item].execution]
  }

  /** `_judge`; `named` says the LogItem still names the publication's Track. */
  predicate Judge(s: Station, item: LogItemId, named: bool) {
    && named && Current(s, item) && GateOpen(s)
    && var e := RowOf(s, item);
    && if e.state.Accepted? then
         && e.generation == s.domain.policy.generation
         && s.insertions[item].execution in s.publications
         && MediaId(e.mix) == Some(s.publications[s.insertions[item].execution].media.id)
       else (e.state.Claimed? || e.state.Started?) && e.engine == Some(s.engine)
  }

  function ClaimedRow(e: Execution, engine: EngineId, now: Time): Execution {
    e.(state := Claimed, claimedAt := Some(now), engine := Some(engine))
  }

  /** `authorize_open`: claims, continues, or refuses; a stale current attempt is suppressed. */
  function AuthorizeOpen(s: Station, item: LogItemId, named: bool, now: Time): Station {
    if !Judge(s, item, named) then
      if Current(s, item) && RowOf(s, item).state.Accepted? && RowOf(s, item).generation != s.domain.policy.generation
      then Suppress(s, s.insertions[item].execution, now)
      else s
    else if !RowOf(s, item).state.Accepted? then s.(phase := Opening(item))
    else if item !in s.logItems then s
    else WithRow(s, s.insertions[item].execution, ClaimedRow(RowOf(s, item), s.engine, now)).(phase := Opening(item))
  }

  /** `_claim_playback_occurrence`: the transaction may fail, or commit and still look failed. */
  function ClaimPlayback(s: Station, commits: bool, reported: bool): Station {
    if !s.phase.Opening? then s
    else
      var item := s.phase.item;
      if !commits || item !in s.logItems then s.(phase := Idle)
      else s.(logItems := s.logItems[item := s.logItems[item].(claimed := true)],
              phase := if reported then Building(item) else Idle)
  }

  function BuildDeck(s: Station, built: bool): Station {
    if !s.phase.Building? then s
    else s.(decks := if built then s.decks + {(s.engine, s.phase.item)} else s.decks, phase := Idle)
  }

  /** `_record_occurrence_air_start`: the first real buffer of a deck of the running process. */
  function AirStart(s: Station, item: LogItemId, at: Time): Station {
    if (s.engine, item) !in s.decks || item !in s.logItems || !s.logItems[item].claimed || s.logItems[item].played
    then s
    else s.(logItems := s.logItems[item := s.logItems[item].(played := true)], plays := s.plays[item := at])
  }

  // -- not aired ---------------------------------------------------------------------------------------------------

  /** Evidence that this process never built a deck for a claimed item: it holds the claim and the LogItem's
      playback claim never committed. */
  predicate ProvablyUnbuilt(s: Station, item: LogItemId, e: Execution) {
    e.engine == Some(s.engine) && item in s.logItems && !s.logItems[item].claimed && !s.logItems[item].played
  }

  /** `report_not_aired`. */
  function ReportNotAired(s: Station, item: LogItemId, token: Token, now: Time): Station {
    if !Current(s, item) then s
    else
      var x, e := s.insertions[item].execution, RowOf(s, item);
      if !EngineHeld(e.state) || e.startedAt.Some? || item in s.plays then s
      else if e.state.Claimed? && !ProvablyUnbuilt(s, item, e) then s
      else if StaleNow(s, e) then Suppress(s, x, now)
      else if x !in s.publications then s
      else Redispatch(s, x, token, now)
  }

  // -- evidence -----------------------------------------------------------------------------------------------------

  /** The LogItem spliced for the execution's current attempt, when its command was accepted. */
  ghost function InsertionOf(s: Station, x: ExecutionId): (r: Option<LogItemId>)
    ensures r.Some? ==> Current(s, r.value) && s.insertions[r.value].execution == x
    ensures r.None? ==> forall item :: Current(s, item) ==> s.insertions[item].execution != x
  {
    if exists item :: Current(s, item) && s.insertions[item].execution == x then
      var item :| Current(s, item) && s.insertions[item].execution == x;
      Some(item)
    else None
  }

  /** The PlayEvent time of the current attempt's LogItem. */
  ghost function Evidence(s: Station, x: ExecutionId): Option<Time> {
    var item := InsertionOf(s, x);
    if item.Some? && item.value in s.plays then Some(s.plays[item.value]) else None
  }

  /** `sync_evidence`, first part: STARTED from the PlayEvent of the current attempt's LogItem. */
  ghost function SyncStarted(s: Station, x: ExecutionId, claimedAt: Option<Time>): Station {
    if x !in s.Executions() || !EngineHeld(s.Executions()[x].state) || Evidence(s, x).None? then s
    else WithDomain(s, AirStarted(s.domain, x, s.Executions()[x].token.GetOr(0), Evidence(s, x).value, claimedAt).domain)
  }

  /** `sync_evidence`, second part, once the deck's ledger is terminal. */
  ghost function SyncEnded(s: Station, x: ExecutionId, clean: bool, endedAt: Time, ms: int, now: Time): Station {
    if x !in s.Executions() || !s.Executions()[x].state.Started? || Evidence(s, x).None? then s
    else
      var e := s.Executions()[x];
      WithDomain(s, if clean then AirCompleted(s.domain, x, e.token.GetOr(0), endedAt, Some(ms), now).domain
                    else AirInterrupted(s.domain, x, e.token.GetOr(0), Later(endedAt, e.startedAt), Some(ms), now).domain)
  }

  function Later(at: Time, floor: Option<Time>): Time {
    if floor.Some? && floor.value > at then floor.value else at
  }

  // -- engine start-up ----------------------------------------------------------------------------------------------

  function Restart(s: Station, engine: EngineId): Station {
    s.(engine := engine, engines := s.engines + {engine}, phase := Booting({}))
  }

  /** The start-up pass projects an execution's evidence before it settles it. */
  ghost function BootSync(s: Station, x: ExecutionId, claimedAt: Option<Time>): Station {
    if !s.phase.Booting? then s else SyncStarted(s, x, claimedAt).(phase := Booting(s.phase.synced + {x}))
  }

  /** `engine_started` for one projected execution: an airing another process started ends as interrupted; an
      attempt another process held is suppressed when stale, else rotated. */
  function BootSettle(s: Station, x: ExecutionId, token: Token, evidenceAt: Time, ms: int, now: Time): Station {
    if !s.phase.Booting? || x !in s.phase.synced || x !in s.Executions() then s
    else
      var e := s.Executions()[x];
      if e.engine == Some(s.engine) then s
      else if e.state.Started? && e.token.Some? then
        WithDomain(s, AirInterrupted(s.domain, x, e.token.value, Later(evidenceAt, e.startedAt), Some(ms), now).domain)
      else if !EngineHeld(e.state) then s
      else if StaleNow(s, e) then Suppress(s, x, now)
      else if x !in s.publications then s
      else Redispatch(s, x, token, now)
  }

  function BootDone(s: Station): Station {
    if s.phase.Booting? then s.(phase := Idle) else s
  }

  // -- the worker's step --------------------------------------------------------------------------------------------

  /** `_engine_held_step`. */
  ghost function HeldStep(s: Station, x: ExecutionId, token: Token, now: Time): Station {
    if x !in s.Executions() || !EngineHeld(s.Executions()[x].state) then s
    else
      var e := s.Executions()[x];
      var item := InsertionOf(s, x);
      if StaleNow(s, e) && (e.state.Accepted? || item.None?) then Suppress(s, x, now)
      else if item.None? then
        if InFlight(e, now) || x !in s.publications then s else Redispatch(s, x, token, now)
      else if e.state.Accepted? && item.value !in s.logItems && x in s.publications then Redispatch(s, x, token, now)
      else s
  }

  // -- steps --------------------------------------------------------------------------------------------------------

  datatype Step =
    | Service(call: Call)
    | Published(execution: ExecutionId)
    | PublicationFailed(execution: ExecutionId, code: FailureCode)
    | TrackDeleted(execution: ExecutionId)
    | FileLost(execution: ExecutionId)
    | Dispatched(execution: ExecutionId, token: Token)
    | Delivered(command: Command, item: LogItemId, category: bool)
    | LogItemDeleted(item: LogItemId)
    | Authorized(item: LogItemId, named: bool)
    | PlaybackClaimed(commits: bool, reported: bool)
    | DeckBuilt(built: bool)
    | AirStarts(item: LogItemId, at: Time)
    | NotAired(item: LogItemId, token: Token)
    | EvidenceStarted(execution: ExecutionId, claimedAt: Option<Time>)
    | EvidenceEnded(execution: ExecutionId, clean: bool, endedAt: Time, ms: int)
    | Restarted(engine: EngineId)
    | BootSynced(execution: ExecutionId, claimedAt: Option<Time>)
    | BootSettled(execution: ExecutionId, token: Token, evidenceAt: Time, ms: int)
    | Booted
    | HeldStepped(execution: ExecutionId, token: Token)

  /** Attempt tokens, process identities and LogItem keys are new whenever one is taken; the engine's one thread
      takes a command, an authority decision or a report only between decks. */
  predicate Enabled(s: Station, step: Step) {
    match step
    case Dispatched(_, token) => token !in s.issued
    case HeldStepped(_, token) => token !in s.issued
    case BootSettled(_, token, _, _) => token !in s.issued
    case NotAired(_, token) => s.phase.Idle? && token !in s.issued
    case Delivered(command, item, _) => s.phase.Idle? && command in s.commands && item !in s.insertions
    case Authorized(_, _) => s.phase.Idle?
    case Restarted(engine) => engine !in s.engines
    case _ => true
  }

  ghost function Next(s: Station, step: Step, now: Time): Station
    requires Enabled(s, step)
  {
    match step
    case Service(call) => WithDomain(s, Serve(s.domain, call, now).domain)
    case Published(x) => Publish(s, x)
    case PublicationFailed(x, code) => PublicationFails(s, x, code, now)
    case TrackDeleted(x) =>
      if x in s.publications then s.(publications := s.publications[x := s.publications[x].(trackLive := false)]) else s
    case FileLost(x) =>
      if x in s.publications then s.(publications := s.publications[x := s.publications[x].(filePresent := false)]) else s
    case Dispatched(x, token) => Dispatch(s, x, token, now)
    case Delivered(command, item, category) => Deliver(s, command, item, category, now)
    case LogItemDeleted(item) => s.(logItems := s.logItems - {item})
    case Authorized(item, named) => AuthorizeOpen(s, item, named, now)
    case PlaybackClaimed(commits, reported) => ClaimPlayback(s, commits, reported)
    case DeckBuilt(built) => BuildDeck(s, built)
    case AirStarts(item, at) => AirStart(s, item, at)
    case NotAired(item, token) => ReportNotAired(s, item, token, now)
    case EvidenceStarted(x, claimedAt) => SyncStarted(s, x, claimedAt)
    case EvidenceEnded(x, clean, endedAt, ms) => SyncEnded(s, x, clean, endedAt, ms, now)
    case Restarted(engine) => Restart(s, engine)
    case BootSynced(x, claimedAt) => BootSync(s, x, claimedAt)
    case BootSettled(x, token, evidenceAt, ms) => BootSettle(s, x, token, evidenceAt, ms, now)
    case Booted => BootDone(s)
    case HeldStepped(x, token) => HeldStep(s, x, token, now)
  }
}
