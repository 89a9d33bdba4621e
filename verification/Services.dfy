/** The rows of the active-message domain (active_messages/models.py) and, for every transaction of
    active_messages/services.py, the domain it leaves behind: one service call is one atomic step
    under the policy lock. An error raised inside a transaction leaves the domain as it was; a
    refusal raised after the transaction keeps what the transaction committed. */
module Services {
  import opened Common
  import opened Ordering
  import opened Composition

  const SECOND: Time := 1000000
  const REPLAY_INTERVAL_MIN := 60
  const REPLAY_INTERVAL_MAX := 86400

  datatype Policy = Policy(generation: nat, enabled: bool, interval: nat, stingerKey: Option<nat>, limits: Limits)

  datatype MessageState = Prepared | Active | Cleared | Expired

  datatype Message = Message(kind: Kind, contentType: nat, producer: nat, state: MessageState, media: Option<Media>,
                             expiresAt: Option<Time>, activationGeneration: Option<nat>, activatedAt: Option<Time>,
                             interval: Option<nat>, lastCompletedAt: Option<Time>, nextDueAt: Option<Time>,
                             terminalAt: Option<Time>, supersededBy: Option<MessageId>)

  datatype ExecutionState = PendingRender | Ready | Accepted | Claimed | Started
                          | Completed | Suppressed | Failed | Interrupted
  datatype Reason = Scheduled | Manual | Reconcile
  datatype FailureCode = StaleGeneration | InputUnavailable | StingerPinUnavailable | ProvenanceMismatch
                       | RenditionInvalid | AggregateTooLong | RenderFailed | DispatchExhausted
                       | PublicationUnavailable | AggregateUnavailable | DestinationConflict

  datatype Execution = Execution(reason: Reason, state: ExecutionState, open: bool, generation: nat, digest: Digest,
                                 snapshot: Snapshot, componentCount: nat, mix: Option<Media>, createdAt: Time,
                                 dueAt: Time, readyAt: Option<Time>, dispatchedAt: Option<Time>,
                                 acceptedAt: Option<Time>, claimedAt: Option<Time>, startedAt: Option<Time>,
                                 endedAt: Option<Time>, terminalAt: Option<Time>, token: Option<Token>,
                                 attempts: nat, engine: Option<EngineId>, confirmedMs: Option<int>,
                                 failure: Option<FailureCode>)

  /** A Replay Now request token as its one event records it. */
  datatype Request = Request(actor: nat, execution: ExecutionId, created: bool)

  /** The tables. `requests`, `reconciled`, `reconciles` and `airedIn` are what the event history
      decides by: the event of a request token, the one `reconciled` record of a failed occurrence,
      the `reconciles` record of a successor, and the last airing applied to a message. */
  datatype Domain = Domain(policy: Policy, messages: map<MessageId, Message>,
                           executions: map<ExecutionId, Execution>, requests: map<Token, Request>,
                           reconciled: map<ExecutionId, Option<ExecutionId>>,
                           reconciles: map<ExecutionId, ExecutionId>, airedIn: map<MessageId, ExecutionId>)

  // -- what the services ask outside the tables --------------------------------------------------------

  datatype Actor = Actor(id: nat, control: bool, produce: bool)
  /** A produced-content type's replay interval, bounded by that table's own constraint. */
  type Interval = n: nat | REPLAY_INTERVAL_MIN <= n <= REPLAY_INTERVAL_MAX witness 1200
  /** The produced-content type as re-read for one call, and the actor's assignment to it. */
  datatype TypeFacts = TypeFacts(mode: Option<Kind>, enabled: bool, assignee: bool, selfPublish: bool,
                                 recallable: bool, interval: Option<Interval>)
  /** `retention.lock_for_binding`'s answer. */
  datatype Binding = Bindable | AiringProhibited | Unavailable
  /** `_usable_stinger`'s answer for the policy's key. */
  datatype StingerReading = StingerUsable(pin: Pin, ms: int) | StingerUnusable

  datatype Code = NotPermitted | UnknownMessage | TerminalMessage | StateChanged | MediaImmutable | MediaRefused
                | ContentTypeRefused | MediaRequired | AlreadyExpired | NotInFuture | ExpiryChanged
                | CompositionIneligible(why: Ineligible) | CompositionBlocked(failure: FailureCode) | LimitExceeded
                | UnknownExecution | NotReconcilable | TokenConflict | ExecutionBusy | NothingIsActive
                | ExecutionNotPending | StaleRefused | RenditionUnavailable | MixRefused(failure: FailureCode)
                | AttemptMismatch | EvidenceOrder | EvidenceDuration | NotEngineHeld | NotOnAir
                | OutOfRange | MessageExceedsAggregate | AiringUnavailable | StingerKeyUnusable | IdConflict

  datatype How = WasCreated | WasRepeated | WasCoalesced
  datatype Reply = Refused(code: Code) | Done | Airing(execution: ExecutionId, how: How) | NoAiring
  datatype Outcome = Outcome(domain: Domain, reply: Reply)

  // -- states -----------------------------------------------------------------------------------------------

  predicate Unfinished(state: ExecutionState) {
    state.PendingRender? || state.Ready? || state.Accepted? || state.Claimed? || state.Started?
  }

  /** Unfinished and still owned by the domain: the engine has not been handed it. */
  predicate Prestart(state: ExecutionState) {
    state.PendingRender? || state.Ready?
  }

  predicate EngineHeld(state: ExecutionState) {
    state.Accepted? || state.Claimed?
  }

  // -- generation and staleness -------------------------------------------------------------------------

  function Bump(d: Domain): Domain {
    d.(policy := d.policy.(generation := d.policy.generation + 1))
  }

  predicate Stale(d: Domain, e: Execution) {
    Prestart(e.state) && e.generation != d.policy.generation
  }

  function Finished(e: Execution, state: ExecutionState, failure: FailureCode, now: Time): Execution {
    e.(state := state, open := false, terminalAt := Some(now), failure := Some(failure))
  }

  function SuppressedRow(d: Domain, id: ExecutionId, now: Time): Execution
    requires id in d.executions
  {
    if Stale(d, d.executions[id]) then Finished(d.executions[id], Suppressed, StaleGeneration, now) else d.executions[id]
  }

  /** `_suppress_stale`: every domain-owned execution built for another generation. */
  function SuppressStale(d: Domain, now: Time): Domain {
    d.(executions := map id | id in d.executions :: SuppressedRow(d, id, now))
  }

  function EndMessage(m: Message, state: MessageState, now: Time, superseder: Option<MessageId>): Message {
    m.(state := state, terminalAt := Some(now), nextDueAt := None, supersededBy := superseder)
  }

  function DueToExpire(d: Domain, now: Time): set<MessageId> {
    set id | id in d.messages && d.messages[id].state.Active? && d.messages[id].expiresAt.Some? &&
             d.messages[id].expiresAt.value <= now
  }

  /** Every due row expired, under a new generation. */
  function Swept(d: Domain, now: Time): Domain {
    var due := DueToExpire(d, now);
    Bump(d).(messages := map id | id in d.messages ::
        if id in due then EndMessage(d.messages[id], Expired, now, None) else d.messages[id])
  }

  /** `_expire_locked`: one generation change for the whole sweep, none when nothing is due. */
  function ExpireLocked(d: Domain, now: Time): Domain {
    if DueToExpire(d, now) == {} then d else SuppressStale(Swept(d, now), now)
  }

  // -- the active set -------------------------------------------------------------------------------------

  function ComponentOf(id: MessageId, m: Message): Component {
    Component(id, m.kind, m.media, m.activatedAt, m.contentType, m.producer)
  }

  function ActiveComponents(messages: map<MessageId, Message>): set<Component> {
    set id | id in messages && messages[id].state.Active? :: ComponentOf(id, messages[id])
  }

  lemma ActiveComponentsOnePerMessage(messages: map<MessageId, Message>)
    ensures OnePerMessage(ActiveComponents(messages))
  {
  }

  predicate AnyUrgent(cs: set<Component>) {
    exists c :: c in cs && c.kind.Urgent?
  }

  /** `_stinger`: the pin and measured duration this set would use now. */
  function StingerFor(policy: Policy, cs: set<Component>, reading: StingerReading): Option<StingerReading> {
    if policy.stingerKey.None? || !AnyUrgent(cs) then None
    else if reading.StingerUsable? && reading.ms > 0 then Some(reading)
    else None
  }

  function PinOf(stinger: Option<StingerReading>): Option<Pin> {
    if stinger.Some? && stinger.value.StingerUsable? then Some(stinger.value.pin) else None
  }

  function StingerMs(stinger: Option<StingerReading>): Option<int> {
    if stinger.Some? && stinger.value.StingerUsable? then Some(stinger.value.ms) else None
  }

  ghost function Eligibility(policy: Policy, cs: set<Component>, stinger: Option<StingerReading>): Option<Ineligible> {
    CheckEligible(policy.limits, Listing(cs), StingerMs(stinger))
  }

  ghost function Aggregate(cs: set<Component>, stinger: Option<StingerReading>): BuildResult {
    Build(Listing(cs), PinOf(stinger), StingerMs(stinger))
  }

  // -- executions ---------------------------------------------------------------------------------------------

  ghost function OpenExecution(d: Domain): (r: Option<ExecutionId>)
    ensures r.None? ==> forall id :: id in d.executions ==> !Unfinished(d.executions[id].state)
    ensures r.Some? ==> r.value in d.executions && Unfinished(d.executions[r.value].state)
  {
    if exists id :: id in d.executions && Unfinished(d.executions[id].state) then
      var id :| id in d.executions && Unfinished(d.executions[id].state);
      Some(id)
    else None
  }

  function NewExecution(policy: Policy, snapshot: Snapshot, reason: Reason, dueAt: Time, createdAt: Time): Execution {
    Execution(reason, PendingRender, true, policy.generation, DigestOf(snapshot), snapshot, |snapshot.components|,
              None, createdAt, dueAt, None, None, None, None, None, None, None, None, 0, None, None, None)
  }

  /** `_create_execution` under a chosen new key. A key already in use rolls the transaction back. */
  function Create(d: Domain, id: ExecutionId, snapshot: Snapshot, reason: Reason, dueAt: Time, createdAt: Time): Domain {
    d.(executions := d.executions[id := NewExecution(d.policy, snapshot, reason, dueAt, createdAt)])
  }

  /** Newest first by creation time, then by id. */
  predicate IsNewest(executions: map<ExecutionId, Execution>, id: ExecutionId) {
    && id in executions
    && forall other :: other in executions ==>
         executions[other].createdAt < executions[id].createdAt ||
         (executions[other].createdAt == executions[id].createdAt && other <= id)
  }

  predicate Blocks(d: Domain, id: ExecutionId, digest: Digest, blocking: set<FailureCode>)
    requires id in d.executions
  {
    var e := d.executions[id];
    && e.state.Failed? && e.failure.Some? && e.failure.value in blocking
    && e.generation == d.policy.generation && e.digest == digest
  }

  ghost function BlockingFailure(d: Domain, digest: Digest, blocking: set<FailureCode>): Option<FailureCode> {
    if exists id :: IsNewest(d.executions, id) && Blocks(d, id, digest, blocking) then
      var id :| IsNewest(d.executions, id) && Blocks(d, id, digest, blocking);
      d.executions[id].failure
    else None
  }

  function DueTimes(messages: map<MessageId, Message>, now: Time): set<Time> {
    set id | id in messages && messages[id].state.Active? && messages[id].nextDueAt.Some? &&
             messages[id].nextDueAt.value <= now :: messages[id].nextDueAt.value
  }

  function Least(s: seq<Time>): (r: Time)
    requires s != []
    ensures r in s && forall t :: t in s ==> r <= t
  {
    if |s| == 1 then s[0]
    else
      var r := Least(s[1..]);
      assert s == [s[0]] + s[1..];
      if s[0] < r then s[0] else r
  }

  ghost function Earliest(times: set<Time>): (r: Time)
    requires times != {}
    ensures r in times && forall t :: t in times ==> r <= t
  {
    Least(Listing(times))
  }

  /** Expiry first, then stale suppression: how every creating call begins. */
  function Refresh(d: Domain, now: Time): Domain {
    SuppressStale(ExpireLocked(d, now), now)
  }

  /** `materialize_due_execution`. */
  ghost function Materialize(d: Domain, id: ExecutionId, now: Time, createdAt: Time, reading: StingerReading,
                             blocking: set<FailureCode>): Outcome
  {
    var r := Refresh(d, now);
    var open := OpenExecution(r);
    var due := DueTimes(r.messages, now);
    if open.Some? then Outcome(r, Airing(open.value, WasCoalesced))
    else if due == {} then Outcome(r, NoAiring)
    else
      var cs := ActiveComponents(r.messages);
      var stinger := StingerFor(r.policy, cs, reading);
      var unfit := Eligibility(r.policy, cs, stinger);
      if unfit.Some? then Outcome(r, Refused(CompositionIneligible(unfit.value)))
      else
        var built := Aggregate(cs, stinger);
        if !built.Built? then Outcome(d, Refused(LimitExceeded))
        else
          var blocked := BlockingFailure(r, DigestOf(built.snapshot), blocking);
          if blocked.Some? then Outcome(r, Refused(CompositionBlocked(blocked.value)))
          else if id in r.executions then Outcome(d, Refused(IdConflict))
          else Outcome(Create(r, id, built.snapshot, Scheduled, Earliest(due), createdAt), Airing(id, WasCreated))
  }

  function Record(d: Domain, failed: ExecutionId, successor: Option<ExecutionId>): Domain {
    d.(reconciled := d.reconciled[failed := successor])
  }

  /** A RECONCILE airing, and the two records that tie it to the occurrence it replaces. */
  function WithSuccessor(d: Domain, id: ExecutionId, snapshot: Snapshot, failed: ExecutionId, dueAt: Time,
                         createdAt: Time): Domain
  {
    var c := Create(d, id, snapshot, Reconcile, dueAt, createdAt);
    Record(c.(reconciles := c.reconciles[id := failed]), failed, Some(id))
  }

  function AiringOf(successor: Option<ExecutionId>, how: How): Reply {
    if successor.Some? then Airing(successor.value, how) else NoAiring
  }

  /** `reconcile_stinger_failure`. */
  ghost function ReconcileFailure(d: Domain, failed: ExecutionId, id: ExecutionId, now: Time, createdAt: Time,
                                  reading: StingerReading): Outcome
  {
    if failed !in d.executions then Outcome(d, Refused(UnknownExecution))
    else if !d.executions[failed].state.Failed? || d.executions[failed].failure != Some(StingerPinUnavailable) then
      Outcome(d, Refused(NotReconcilable))
    else if failed in d.reconciled then Outcome(d, AiringOf(d.reconciled[failed], WasRepeated))
    else
      var r := Refresh(d, now);
      var open := OpenExecution(r);
      var cs := ActiveComponents(r.messages);
      if d.executions[failed].generation != r.policy.generation then Outcome(Record(r, failed, None), NoAiring)
      else if open.Some? then Outcome(Record(r, failed, open), Airing(open.value, WasCoalesced))
      else if cs == {} then Outcome(Record(r, failed, None), NoAiring)
      else
        var stinger := StingerFor(r.policy, cs, reading);
        var unfit := Eligibility(r.policy, cs, stinger);
        var built := Aggregate(cs, stinger);
        if unfit.Some? then Outcome(r, Refused(CompositionIneligible(unfit.value)))
        else if !built.Built? then Outcome(d, Refused(LimitExceeded))
        else if id in r.executions then Outcome(d, Refused(IdConflict))
        else
          Outcome(WithSuccessor(r, id, built.snapshot, failed, now, createdAt), Airing(id, WasCreated))
  }

  /** `request_manual_replay_outcome`. */
  ghost function Replay(d: Domain, actor: Actor, token: Token, id: ExecutionId, now: Time, createdAt: Time,
                        reading: StingerReading): Outcome
  {
    if !actor.control then Outcome(d, Refused(NotPermitted))
    else if token in d.requests then
      if d.requests[token].actor != actor.id then Outcome(d, Refused(TokenConflict))
      else Outcome(d, Airing(d.requests[token].execution, WasRepeated))
    else
      var r := Refresh(d, now);
      var open := OpenExecution(r);
      var cs := ActiveComponents(r.messages);
      if open.Some? then
        if r.executions[open.value].generation != r.policy.generation then Outcome(d, Refused(ExecutionBusy))
        else Outcome(r.(requests := r.requests[token := Request(actor.id, open.value, false)]),
                     Airing(open.value, WasCoalesced))
      else if cs == {} then Outcome(d, Refused(NothingIsActive))
      else
        var stinger := StingerFor(r.policy, cs, reading);
        var unfit := Eligibility(r.policy, cs, stinger);
        var built := Aggregate(cs, stinger);
        if unfit.Some? then Outcome(r, Refused(CompositionIneligible(unfit.value)))
        else if !built.Built? then Outcome(d, Refused(LimitExceeded))
        else if id in r.executions then Outcome(d, Refused(IdConflict))
        else
          var c := Create(r, id, built.snapshot, Manual, now, createdAt);
          Outcome(c.(requests := c.requests[token := Request(actor.id, id, true)]), Airing(id, WasCreated))
  }

  // -- message lifecycle ------------------------------------------------------------------------------------

  predicate TypeUsable(type_: TypeFacts) {
    type_.mode.Some? && type_.enabled
  }

  predicate MayProduce(actor: Actor, type_: TypeFacts) {
    actor.control || (actor.produce && type_.assignee)
  }

  /** `prepare_message`. */
  function Prepare(d: Domain, id: MessageId, actor: Actor, contentType: nat, type_: TypeFacts,
                   expiresAt: Option<Time>, now: Time): Outcome
  {
    if !actor.control && !actor.produce then Outcome(d, Refused(NotPermitted))
    else if !TypeUsable(type_) then Outcome(d, Refused(ContentTypeRefused))
    else if !MayProduce(actor, type_) then Outcome(d, Refused(NotPermitted))
    else if expiresAt.Some? && expiresAt.value <= now then Outcome(d, Refused(NotInFuture))
    else if id in d.messages then Outcome(d, Refused(IdConflict))
    else
      Outcome(d.(messages := d.messages[id := Message(type_.mode.value, contentType, actor.id, Prepared, None,
                     expiresAt, None, None, None, None, None, None, None)]), Done)
  }

  /** `bind_message_media` (without the editor's revision token). */
  function BindMedia(d: Domain, id: MessageId, actor: Actor, type_: TypeFacts, media: Media, ownMedia: bool,
                     binding: Binding): Outcome
  {
    if !actor.control && !actor.produce then Outcome(d, Refused(NotPermitted))
    else if id !in d.messages then Outcome(d, Refused(UnknownMessage))
    else
      var m := d.messages[id];
      if !m.state.Prepared? then Outcome(d, Refused(MediaImmutable))
      else if m.producer != actor.id && !actor.control then Outcome(d, Refused(NotPermitted))
      else if !TypeUsable(type_) || type_.mode.value != m.kind then Outcome(d, Refused(ContentTypeRefused))
      else if !MayProduce(actor, type_) then Outcome(d, Refused(NotPermitted))
      else if m.media.Some? && m.media.value.id == media.id then Outcome(d, Done)
      else if binding != Bindable || (!ownMedia && !actor.control) then Outcome(d, Refused(MediaRefused))
      else if media.ms.None? || media.ms.value <= 0 then Outcome(d, Refused(MediaRefused))
      else if media.ms.value > d.policy.limits.maxMessageSeconds * 1000 then Outcome(d, Refused(LimitExceeded))
      else Outcome(d.(messages := d.messages[id := m.(media := Some(media))]), Done)
  }

  /** `set_message_expiry`; `expected` is the expiry the operator's page showed, when it gave one. */
  function SetExpiry(d: Domain, id: MessageId, actor: Actor, type_: TypeFacts, expiresAt: Option<Time>,
                     expected: Option<Option<Time>>, now: Time): Outcome
  {
    if expiresAt.Some? && expiresAt.value <= now then Outcome(d, Refused(NotInFuture))
    else if !actor.control && !actor.produce then Outcome(d, Refused(NotPermitted))
    else if id !in d.messages then Outcome(d, Refused(UnknownMessage))
    else
      var m := d.messages[id];
      if m.state.Active? && !actor.control then Outcome(d, Refused(NotPermitted))
      else if m.state.Prepared? && m.producer != actor.id && !actor.control then Outcome(d, Refused(NotPermitted))
      else if m.state.Prepared? && (!TypeUsable(type_) || type_.mode.value != m.kind) then
        Outcome(d, Refused(ContentTypeRefused))
      else if m.state.Prepared? && !MayProduce(actor, type_) then Outcome(d, Refused(NotPermitted))
      else if m.state.Cleared? || m.state.Expired? then Outcome(d, Refused(TerminalMessage))
      else if expected.Some? && expected.value != m.expiresAt then Outcome(d, Refused(ExpiryChanged))
      else Outcome(d.(messages := d.messages[id := m.(expiresAt := expiresAt)]), Done)
  }

  predicate SameSlot(a: Message, b: Message) {
    a.producer == b.producer && a.contentType == b.contentType
  }

  /** `_current_active_id`: the producer's ACTIVE message of this exact type, other than `id` itself. */
  ghost function Superseded(d: Domain, id: MessageId): (r: Option<MessageId>)
    requires id in d.messages
    ensures r.Some? ==> r.value in d.messages && r.value != id && d.messages[r.value].state.Active? &&
                        SameSlot(d.messages[r.value], d.messages[id])
    ensures r.None? ==> forall other :: other in d.messages && other != id && d.messages[other].state.Active? ==>
                        !SameSlot(d.messages[other], d.messages[id])
  {
    if exists other :: other in d.messages && other != id && d.messages[other].state.Active? &&
                       SameSlot(d.messages[other], d.messages[id]) then
      var other :| other in d.messages && other != id && d.messages[other].state.Active? &&
                   SameSlot(d.messages[other], d.messages[id]);
      Some(other)
    else None
  }

  function ActivatedRow(m: Message, generation: nat, interval: nat, now: Time): Message {
    m.(state := Active, activationGeneration := Some(generation), activatedAt := Some(now),
       interval := Some(interval), nextDueAt := Some(now))
  }

  /** The active set an activation would produce: its own row still undated, so last of its kind or first;
      eligibility reads neither. */
  function Candidates(d: Domain, id: MessageId, previous: Option<MessageId>): set<Component>
    requires id in d.messages
  {
    (set other | other in d.messages && d.messages[other].state.Active? && Some(other) != previous ::
       ComponentOf(other, d.messages[other])) + {ComponentOf(id, d.messages[id])}
  }

  /** The rows an activation writes, under a new generation. */
  function Activated(d: Domain, id: MessageId, previous: Option<MessageId>, interval: nat, now: Time): Domain
    requires id in d.messages && (previous.Some? ==> previous.value in d.messages)
  {
    var b := Bump(d);
    var rows := if previous.Some? then
                  b.messages[previous.value := EndMessage(b.messages[previous.value], Cleared, now, Some(id))]
                else b.messages;
    b.(messages := rows[id := ActivatedRow(d.messages[id], b.policy.generation, interval, now)])
  }

  predicate MayActivate(actor: Actor, m: Message, type_: TypeFacts) {
    actor.control || (m.producer == actor.id && type_.assignee && type_.selfPublish)
  }

  /** Why a message may not be activated as it is. */
  function ActivationRefusal(m: Message, type_: TypeFacts, binding: Binding, now: Time): Option<Code> {
    if !m.state.Prepared? then Some(TerminalMessage)
    else if !TypeUsable(type_) || type_.mode.value != m.kind then Some(ContentTypeRefused)
    else if m.media.None? then Some(MediaRequired)
    else if m.expiresAt.Some? && m.expiresAt.value <= now then Some(AlreadyExpired)
    else if binding != Bindable then Some(MediaRefused)
    else None
  }

  /** `activate_message` (without the reviewer's revision token). */
  ghost function Activate(d: Domain, id: MessageId, actor: Actor, type_: TypeFacts, binding: Binding,
                          reading: StingerReading, now: Time): Outcome
  {
    if !actor.control && !actor.produce then Outcome(d, Refused(NotPermitted))
    else if id !in d.messages then Outcome(d, Refused(UnknownMessage))
    else
      var m := d.messages[id];
      var previous := Superseded(d, id);
      if !MayActivate(actor, m, type_) then Outcome(d, Refused(NotPermitted))
      else if m.state.Active? then Outcome(d, Done)
      else if ActivationRefusal(m, type_, binding, now).Some? then
        Outcome(d, Refused(ActivationRefusal(m, type_, binding, now).value))
      else
        var candidates := Candidates(d, id, previous);
        var unfit := Eligibility(d.policy, candidates, StingerFor(d.policy, candidates, reading));
        if unfit.Some? then Outcome(d, Refused(CompositionIneligible(unfit.value)))
        else
          var interval := if type_.interval.Some? then type_.interval.value else d.policy.interval;
          Outcome(SuppressStale(Activated(d, id, previous, interval, now), now), Done)
  }

  predicate MayClearActive(actor: Actor, m: Message, type_: TypeFacts) {
    actor.control || (m.producer == actor.id && type_.recallable)
  }

  /** `clear_message`; `expected` is the state the caller meant to act on, when it gave one. */
  function Clear(d: Domain, id: MessageId, actor: Actor, type_: TypeFacts, expected: Option<MessageState>,
                 now: Time): Outcome
  {
    if !actor.control && !actor.produce then Outcome(d, Refused(NotPermitted))
    else if id !in d.messages then Outcome(d, Refused(UnknownMessage))
    else
      var m := d.messages[id];
      if m.state.Cleared? || m.state.Expired? then Outcome(d, Done)
      else if expected.Some? && expected.value != m.state then Outcome(d, Refused(StateChanged))
      else if m.state.Prepared? then
        if m.producer != actor.id && !actor.control then Outcome(d, Refused(NotPermitted))
        else Outcome(d.(messages := d.messages[id := EndMessage(m, Cleared, now, None)]), Done)
      else if !MayClearActive(actor, m, type_) then Outcome(d, Refused(NotPermitted))
      else Outcome(SuppressStale(Bump(d).(messages := d.messages[id := EndMessage(m, Cleared, now, None)]), now), Done)
  }

  /** `expire_due_messages`. */
  function Expire(d: Domain, now: Time): Outcome {
    Outcome(ExpireLocked(d, now), Done)
  }

  // -- aggregate binding and render outcomes ------------------------------------------------------------------

  /** Inside `bind_execution_mix`'s transaction, every lock held: prove, then bind. */
  function BoundMix(d: Domain, id: ExecutionId, media: Media, now: Time): Outcome
    requires id in d.executions
  {
    var e := d.executions[id];
    if DigestOf(e.snapshot) != e.digest || !Proves(media, e.snapshot) then Outcome(d, Refused(MixRefused(ProvenanceMismatch)))
    else if media.ms.None? || media.ms.value <= 0 then Outcome(d, Refused(MixRefused(RenditionInvalid)))
    else if media.ms.value > d.policy.limits.maxAggregateSeconds * 1000 then
      Outcome(d, Refused(MixRefused(FailureCode.AggregateTooLong)))
    else Outcome(d.(executions := d.executions[id := e.(state := Ready, mix := Some(media), readyAt := Some(now))]), Done)
  }

  /** `bind_execution_mix`: a stale execution is suppressed, and that commits before the refusal. */
  function BindMix(d: Domain, id: ExecutionId, media: Media, binding: Binding, now: Time): Outcome {
    if binding.AiringProhibited? then Outcome(d, Refused(MixRefused(InputUnavailable)))
    else if binding.Unavailable? then Outcome(d, Refused(RenditionUnavailable))
    else if id !in d.executions then Outcome(d, Refused(UnknownExecution))
    else
      var e := d.executions[id];
      if e.state.Ready? && e.mix.Some? && e.mix.value.id == media.id then Outcome(d, Done)
      else if !e.state.PendingRender? then Outcome(d, Refused(ExecutionNotPending))
      else if e.generation != d.policy.generation then Outcome(SuppressStale(d, now), Refused(StaleRefused))
      else BoundMix(d, id, media, now)
  }

  predicate RenderCode(code: FailureCode) {
    code.InputUnavailable? || code.StingerPinUnavailable? || code.ProvenanceMismatch? || code.RenditionInvalid? ||
    code.AggregateTooLong? || code.RenderFailed?
  }

  /** `fail_execution`. */
  function FailExecution(d: Domain, id: ExecutionId, code: FailureCode, now: Time): Outcome {
    if !RenderCode(code) then Outcome(d, Refused(OutOfRange))
    else if id !in d.executions then Outcome(d, Refused(UnknownExecution))
    else
      var e := d.executions[id];
      if !e.state.PendingRender? then Outcome(d, Done)
      else if e.generation != d.policy.generation then Outcome(SuppressStale(d, now), Done)
      else Outcome(d.(executions := d.executions[id := Finished(e, Failed, code, now)]), Done)
  }

  // -- air evidence -------------------------------------------------------------------------------------------

  /** `record_air_started`. */
  function AirStarted(d: Domain, id: ExecutionId, token: Token, startedAt: Time, claimedAt: Option<Time>): Outcome {
    if id !in d.executions then Outcome(d, Refused(UnknownExecution))
    else
      var e := d.executions[id];
      if e.token != Some(token) then Outcome(d, Refused(AttemptMismatch))
      else if (e.state.Started? || e.state.Completed? || e.state.Interrupted?) && e.startedAt.Some? then Outcome(d, Done)
      else if !EngineHeld(e.state) then Outcome(d, Refused(NotEngineHeld))
      else
        var claimed := if e.claimedAt.Some? then e.claimedAt else if claimedAt.Some? then claimedAt else Some(startedAt);
        Outcome(d.(executions := d.executions[id :=
                    e.(state := Started, claimedAt := claimed, startedAt := Some(startedAt))]), Done)
  }

  function CadencedRow(m: Message, anchor: Time, completed: bool): Message {
    m.(nextDueAt := Some(anchor + m.interval.GetOr(0) * SECOND),
       lastCompletedAt := if completed then Some(anchor) else m.lastCompletedAt)
  }

  /** The still-active messages of an airing. */
  function Participants(d: Domain, s: Snapshot): set<MessageId> {
    set c | c in s.components && c.message in d.messages && d.messages[c.message].state.Active? :: c.message
  }

  /** The airing applied to some of the messages. */
  function Cadenced(d: Domain, among: set<MessageId>, id: ExecutionId, anchor: Time, completed: bool): Domain {
    d.(messages := map m | m in d.messages ::
         if m in among then CadencedRow(d.messages[m], anchor, completed) else d.messages[m],
       airedIn := map m | m in d.airedIn.Keys + among :: if m in among then id else d.airedIn[m])
  }

  /** `_apply_cadence`: each still-active participant is next due one interval after the evidence. */
  function ApplyCadence(d: Domain, id: ExecutionId, anchor: Time, completed: bool): Domain
    requires id in d.executions
  {
    Cadenced(d, Participants(d, d.executions[id].snapshot), id, anchor, completed)
  }

  function EvidenceProblem(e: Execution, token: Token, endedAt: Time, confirmedMs: Option<int>): Option<Code> {
    if e.token != Some(token) then Some(AttemptMismatch)
    else if e.startedAt.None? || endedAt < e.startedAt.value then Some(EvidenceOrder)
    else if confirmedMs.Some? && confirmedMs.value < 0 then Some(EvidenceDuration)
    else None
  }

  /** `record_air_completed`. */
  function AirCompleted(d: Domain, id: ExecutionId, token: Token, endedAt: Time, confirmedMs: Option<int>,
                        now: Time): Outcome
  {
    if id !in d.executions then Outcome(d, Refused(UnknownExecution))
    else
      var e := d.executions[id];
      var problem := EvidenceProblem(e, token, endedAt, confirmedMs);
      if e.state.Completed? && e.token == Some(token) then Outcome(d, Done)
      else if !e.state.Started? then Outcome(d, Refused(NotOnAir))
      else if problem.Some? then Outcome(d, Refused(problem.value))
      else if confirmedMs.None? then Outcome(d, Refused(EvidenceDuration))
      else
        var row := e.(state := Completed, open := false, endedAt := Some(endedAt), terminalAt := Some(now),
                      confirmedMs := confirmedMs);
        Outcome(ApplyCadence(d.(executions := d.executions[id := row]), id, endedAt, true), Done)
  }

  /** `record_air_interrupted`. */
  function AirInterrupted(d: Domain, id: ExecutionId, token: Token, lastEvidenceAt: Time, confirmedMs: Option<int>,
                          now: Time): Outcome
  {
    if id !in d.executions then Outcome(d, Refused(UnknownExecution))
    else
      var e := d.executions[id];
      var problem := EvidenceProblem(e, token, lastEvidenceAt, confirmedMs);
      if e.state.Interrupted? && e.token == Some(token) then Outcome(d, Done)
      else if !e.state.Started? then Outcome(d, Refused(NotOnAir))
      else if problem.Some? then Outcome(d, Refused(problem.value))
      else
        var row := e.(state := Interrupted, open := false, endedAt := Some(lastEvidenceAt), terminalAt := Some(now),
                      confirmedMs := confirmedMs);
        Outcome(ApplyCadence(d.(executions := d.executions[id := row]), id, lastEvidenceAt, false), Done)
  }

  // -- policy ---------------------------------------------------------------------------------------------------

  /** `set_default_replay_interval`: the composition does not change, so neither does the generation. */
  function SetInterval(d: Domain, actor: Actor, seconds: int): Outcome {
    if !actor.control then Outcome(d, Refused(NotPermitted))
    else if !(REPLAY_INTERVAL_MIN <= seconds <= REPLAY_INTERVAL_MAX) then Outcome(d, Refused(OutOfRange))
    else Outcome(d.(policy := d.policy.(interval := seconds)), Done)
  }

  /** `set_stinger_key`; `usable` is what `validate_stinger_key` found now. */
  function SetStingerKey(d: Domain, actor: Actor, key: Option<nat>, usable: bool, now: Time): Outcome {
    if !actor.control then Outcome(d, Refused(NotPermitted))
    else if key.Some? && !usable then Outcome(d, Refused(StingerKeyUnusable))
    else if key == d.policy.stingerKey then Outcome(d, Done)
    else
      var b := Bump(d);
      Outcome(SuppressStale(b.(policy := b.policy.(stingerKey := key)), now), Done)
  }

  predicate InCeiling(value: Option<int>, ceiling: int) {
    value.Some? ==> 1 <= value.value <= ceiling
  }

  /** `set_limits`. */
  function SetLimits(d: Domain, actor: Actor, maxActive: Option<int>, maxMessage: Option<int>, maxAggregate: Option<int>,
                     now: Time): Outcome
  {
    var current := d.policy.limits;
    var merged := Limits(maxActive.GetOr(current.maxActive), maxMessage.GetOr(current.maxMessageSeconds),
                         maxAggregate.GetOr(current.maxAggregateSeconds));
    if !actor.control then Outcome(d, Refused(NotPermitted))
    else if !InCeiling(maxActive, ABSOLUTE_MAX_ACTIVE_MESSAGES) || !InCeiling(maxMessage, ABSOLUTE_MAX_MESSAGE_SECONDS)
            || !InCeiling(maxAggregate, ABSOLUTE_MAX_AGGREGATE_SECONDS) then Outcome(d, Refused(OutOfRange))
    else if merged.maxMessageSeconds > merged.maxAggregateSeconds then Outcome(d, Refused(MessageExceedsAggregate))
    else if merged == current then Outcome(d, Done)
    else
      var b := Bump(d);
      Outcome(SuppressStale(b.(policy := b.policy.(limits := merged)), now), Done)
  }

  /** `set_native_airing`; `available` is NATIVE_AIRING_AVAILABLE. */
  function SetNativeAiring(d: Domain, actor: Actor, enabled: bool, available: bool, now: Time): Outcome {
    if !actor.control then Outcome(d, Refused(NotPermitted))
    else if enabled && !available then Outcome(d, Refused(AiringUnavailable))
    else if enabled == d.policy.enabled then Outcome(d, Done)
    else
      var b := Bump(d);
      Outcome(SuppressStale(b.(policy := b.policy.(enabled := enabled)), now), Done)
  }

  // -- one service call -------------------------------------------------------------------------------------------

  /** The calls producers, operators and the render worker make. Air evidence is not among them: only the
      playout projects it. */
  datatype Call =
    | PrepareMessage(message: MessageId, actor: Actor, contentType: nat, type_: TypeFacts, expiresAt: Option<Time>)
    | BindMessageMedia(message: MessageId, actor: Actor, type_: TypeFacts, media: Media, ownMedia: bool, binding: Binding)
    | SetMessageExpiry(message: MessageId, actor: Actor, type_: TypeFacts, expiresAt: Option<Time>,
                       shown: Option<Option<Time>>)
    | ActivateMessage(message: MessageId, actor: Actor, type_: TypeFacts, binding: Binding, reading: StingerReading)
    | ClearMessage(message: MessageId, actor: Actor, type_: TypeFacts, expected: Option<MessageState>)
    | ExpireDueMessages
    | MaterializeDue(id: ExecutionId, createdAt: Time, reading: StingerReading, blocking: set<FailureCode>)
    | ReconcileStinger(failed: ExecutionId, id: ExecutionId, createdAt: Time, reading: StingerReading)
    | RequestReplay(actor: Actor, request: Token, id: ExecutionId, createdAt: Time, reading: StingerReading)
    | BindExecutionMix(id: ExecutionId, media: Media, binding: Binding)
    | FailPending(id: ExecutionId, code: FailureCode)
    | SetDefaultInterval(actor: Actor, seconds: int)
    | SetStinger(actor: Actor, key: Option<nat>, usable: bool)
    | SetActiveLimits(actor: Actor, maxActive: Option<int>, maxMessage: Option<int>, maxAggregate: Option<int>)
    | SetAiring(actor: Actor, enabled: bool, available: bool)

  ghost function Serve(d: Domain, call: Call, now: Time): Outcome {
    match call
    case PrepareMessage(m, actor, c, t, expiresAt) => Prepare(d, m, actor, c, t, expiresAt, now)
    case BindMessageMedia(m, actor, t, media, own, binding) => BindMedia(d, m, actor, t, media, own, binding)
    case SetMessageExpiry(m, actor, t, expiresAt, shown) => SetExpiry(d, m, actor, t, expiresAt, shown, now)
    case ActivateMessage(m, actor, t, binding, reading) => Activate(d, m, actor, t, binding, reading, now)
    case ClearMessage(m, actor, t, expected) => Clear(d, m, actor, t, expected, now)
    case ExpireDueMessages => Expire(d, now)
    case MaterializeDue(id, createdAt, reading, blocking) => Materialize(d, id, now, createdAt, reading, blocking)
    case ReconcileStinger(failed, id, createdAt, reading) => ReconcileFailure(d, failed, id, now, createdAt, reading)
    case RequestReplay(actor, request, id, createdAt, reading) => Replay(d, actor, request, id, now, createdAt, reading)
    case BindExecutionMix(id, media, binding) => BindMix(d, id, media, binding, now)
    case FailPending(id, code) => FailExecution(d, id, code, now)
    case SetDefaultInterval(actor, seconds) => SetInterval(d, actor, seconds)
    case SetStinger(actor, key, usable) => SetStingerKey(d, actor, key, usable, now)
    case SetActiveLimits(actor, maxActive, maxMessage, maxAggregate) =>
      SetLimits(d, actor, maxActive, maxMessage, maxAggregate, now)
    case SetAiring(actor, enabled, available) => SetNativeAiring(d, actor, enabled, available, now)
  }
}
