/** The station's promises, each over every run from an initial station. */
module Guarantees {
  import opened Common
  import opened Ordering
  import opened Composition
  import opened Services
  import opened DomainInvariants
  import opened ServiceSteps
  import opened Playout
  import opened PlayoutInvariants
  import opened PlayoutSteps
  import opened Runs
  import opened Airings

  // -- one airing ---------------------------------------------------------------------------------------------------

  /** Whatever is lost, repeated, delayed, resent, deleted or restarted: at most one LogItem of an execution
      ever gets a PlayEvent, and once it has one it keeps that one. */
  lemma OneAiring(s: Station, run: seq<Moment>, k: nat, a: LogItemId, b: LogItemId)
    requires Initial(s) && k <= |run|
    requires a in After(s, run[..k]).plays && b in After(s, run).plays && SameExecution(After(s, run), a, b)
    ensures a == b && After(s, run).plays[a] == After(s, run[..k]).plays[a]
  {
    hide Initial, DomainOk, RowsRemember, AnswersRemembered, After;
    ReachableOk(s, run);
    RunRemembers(s, run, k);
    PlayedFacts(After(s, run), a);
    PlayedFacts(After(s, run), b);
    hide AiringOk, EvidenceRemembered;
    TwoCurrent(After(s, run), a, b);
  }

  lemma TwoCurrent(s: Station, a: LogItemId, b: LogItemId)
    requires AiringOk(s) && Current(s, a) && Current(s, b) && SameExecution(s, a, b)
    ensures a == b
  {
    hide IssuedOk, PublicationsOk, DecksOk, AirOk, InsertionsOk;
    CurrentIsUnique(s, a, b);
  }

  /** One engine process never builds decks for two LogItems of the same execution. */
  lemma OneItemPerProcess(s: Station, run: seq<Moment>, g: EngineId, a: LogItemId, b: LogItemId)
    requires Initial(s)
    requires var n := After(s, run); DeckOf(n, g, a) && DeckOf(n, g, b) && SameExecution(n, a, b)
    ensures a == b
  {
    hide Initial, DomainOk, InsertionsOk, IssuedOk, PublicationsOk, AirOk, After;
    ReachableOk(s, run);
  }

  /** When exactly a process that built a deck for a LogItem may be handed it again, as its own continuation: while its
      Track still is the one published, the gate is open, and the airing has not ended. */
  lemma HandedAgainExactly(s: Station, run: seq<Moment>, item: LogItemId, named: bool, now: Time)
    requires Initial(s)
    requires var n := After(s, run); DeckOf(n, n.engine, item) && n.phase.Idle?
    ensures var n := After(s, run);
            && Handed(n, item)
            && (AuthorizeOpen(n, item, named, now).phase == Opening(item) <==>
                  named && GateOpen(n) && !Ended(RowOf(n, item).state))
            && AuthorizeOpen(n, item, named, now).domain == n.domain
  {
    ReachableOk(s, run);
    hide Initial, StationOk, After, AuthorizeOpen, GateOpen;
    DeckIsHanded(After(s, run), item);
    ContinuesExactly(After(s, run), item, named, now);
  }

  lemma ContinuesExactly(s: Station, item: LogItemId, named: bool, now: Time)
    requires Handed(s, item) && s.phase.Idle?
    ensures AuthorizeOpen(s, item, named, now).phase == Opening(item) <==>
              named && GateOpen(s) && !Ended(RowOf(s, item).state)
    ensures AuthorizeOpen(s, item, named, now).domain == s.domain
  {
    hide GateOpen, Suppress, WithRow;
  }

  lemma DeckIsHanded(s: Station, item: LogItemId)
    requires StationOk(s) && DeckOf(s, s.engine, item)
    ensures Handed(s, item)
  {
    hide DomainOk, InsertionsOk, IssuedOk, PublicationsOk, AirOk;
  }

  /** A row says STARTED, COMPLETED or INTERRUPTED only beside the PlayEvent of its own current attempt, and
      carries that event's time. */
  lemma AirNeedsEvidence(s: Station, run: seq<Moment>, x: ExecutionId) returns (item: LogItemId)
    requires Initial(s)
    requires var n := After(s, run); x in n.Executions() && WasStarted(n.Executions()[x].state)
    ensures StartedBy(After(s, run), x, item)
  {
    hide Initial, DomainOk, AiringOk, After;
    ReachableOk(s, run);
    item := StartedFacts(After(s, run), x);
  }

  predicate OnAir(s: Station, x: ExecutionId) {
    x in s.Executions() && s.Executions()[x].state.Started?
  }

  predicate HasAired(s: Station, x: ExecutionId) {
    x in s.Executions() && WasStarted(s.Executions()[x].state)
  }

  /** How often a run takes an execution into STARTED. */
  ghost function Starts(s: Station, run: seq<Moment>, x: ExecutionId): nat {
    if run == [] then 0
    else
      var before := run[..|run| - 1];
      Starts(s, before, x) + if !OnAir(After(s, before), x) && OnAir(After(s, run), x) then 1 else 0
  }

  /** An execution enters STARTED at most once, and never after it has aired or ended. */
  lemma {:induction false} StartsAtMostOnce(s: Station, run: seq<Moment>, x: ExecutionId)
    requires Initial(s)
    ensures Starts(s, run, x) <= 1
    ensures Starts(s, run, x) == 1 ==> HasAired(After(s, run), x)
  {
    hide Initial, StationOk, Take;
    if run != [] {
      var before := run[..|run| - 1];
      StartsAtMostOnce(s, before, x);
      ReachableOk(s, before);
      TakeRemembers(After(s, before), run[|run| - 1]);
      hide AnswersRemembered, EvidenceRemembered;
      assert HasAired(After(s, before), x) ==>
        RowHistory(After(s, before).domain.executions[x], After(s, run).domain.executions[x]);
    }
  }

  // -- what a claim plays -------------------------------------------------------------------------------------------

  predicate InState(s: Station, x: ExecutionId, state: ExecutionState) {
    x in s.Executions() && s.Executions()[x].state == state
  }

  /** Only deck-open authority claims an accepted execution. */
  lemma OnlyAuthorityClaims(s: Station, step: Step, now: Time, x: ExecutionId)
    requires StationOk(s) && Enabled(s, step)
    requires InState(s, x, Accepted) && InState(Next(s, step, now), x, Claimed)
    ensures step.Authorized? && Judge(s, step.item, step.named) && s.insertions[step.item].execution == x
    ensures step.item in s.logItems
  {
    hide DomainOk, AiringOk, Serve, Publish, PublicationFails, Dispatch, Deliver, SyncEnded,
         ReportNotAired, SyncStarted, BootSync, BootSettle, HeldStep, AuthorizeOpen, StaleNow, GateOpen;
    match step
    case Service(call) => ServeNeverClaims(s, call, now, x);
    case PublicationFailed(y, code) => RowsNeverClaim(s, y, 0, now, x);
    case Dispatched(y, token) => RowsNeverClaim(s, y, token, now, x);
    case Delivered(c, item, category) => DeliverNeverClaims(s, c, item, category, now, x);
    case NotAired(item, token) => ReportNeverClaims(s, item, token, now, x);
    case EvidenceStarted(y, claimedAt) => SyncNeverClaims(s, y, claimedAt, x);
    case EvidenceEnded(y, clean, endedAt, ms) => EndedNeverClaims(s, y, clean, endedAt, ms, now, x);
    case BootSynced(y, claimedAt) => BootSyncNeverClaims(s, y, claimedAt, x);
    case BootSettled(y, token, evidenceAt, ms) => SettleNeverClaims(s, y, token, evidenceAt, ms, now, x);
    case HeldStepped(y, token) => HeldNeverClaims(s, y, token, now, x);
    case Authorized(item, named) => AuthorizeClaims(s, item, named, now, x);
    case _ => SameRowsNeverClaim(s, step, now);
  }

  lemma ServeNeverClaims(s: Station, call: Call, now: Time, x: ExecutionId)
    requires StationOk(s) && InState(s, x, Accepted)
    ensures !InState(WithDomain(s, Serve(s.domain, call, now).domain), x, Claimed)
  {
    hide DomainOk, AiringOk, Serve, Lives, Remembers;
    ServeIsOrdinary(s.domain, call, now);
    assert OwnRow(s.domain.executions[x], Serve(s.domain, call, now).domain.executions[x]);
  }

  lemma RedispatchNeverClaims(s: Station, y: ExecutionId, token: Token, now: Time, x: ExecutionId)
    requires InState(s, x, Accepted) && y in s.Executions() && y in s.publications
    requires InHand(s.Executions()[y].state)
    ensures !InState(Redispatch(s, y, token, now), x, Claimed)
  {
    hide Redispatch;
    RedispatchWrites(s, y, token, now);
  }

  lemma RowsNeverClaim(s: Station, y: ExecutionId, token: Token, now: Time, x: ExecutionId)
    requires InState(s, x, Accepted)
    ensures !InState(Dispatch(s, y, token, now), x, Claimed)
    ensures forall code :: !InState(PublicationFails(s, y, code, now), x, Claimed)
  {
    hide Redispatch, StaleNow;
    if y in s.Executions() && y in s.publications && InHand(s.Executions()[y].state) {
      RedispatchNeverClaims(s, y, token, now, x);
    }
  }

  lemma DeliverNeverClaims(s: Station, c: Command, item: LogItemId, category: bool, now: Time, x: ExecutionId)
    requires InState(s, x, Accepted)
    ensures !InState(Deliver(s, c, item, category, now), x, Claimed)
  {
    hide StaleNow, InsertedToken;
  }

  lemma ReportNeverClaims(s: Station, item: LogItemId, token: Token, now: Time, x: ExecutionId)
    requires InState(s, x, Accepted)
    ensures !InState(ReportNotAired(s, item, token, now), x, Claimed)
  {
    hide Redispatch, StaleNow;
    if Current(s, item) && s.insertions[item].execution in s.publications && InHand(RowOf(s, item).state) {
      RedispatchNeverClaims(s, s.insertions[item].execution, token, now, x);
    }
  }

  lemma SyncNeverClaims(s: Station, y: ExecutionId, claimedAt: Option<Time>, x: ExecutionId)
    requires InState(s, x, Accepted)
    ensures !InState(SyncStarted(s, y, claimedAt), x, Claimed)
  {
    hide Evidence;
  }

  lemma BootSyncNeverClaims(s: Station, y: ExecutionId, claimedAt: Option<Time>, x: ExecutionId)
    requires InState(s, x, Accepted)
    ensures !InState(BootSync(s, y, claimedAt), x, Claimed)
  {
    hide SyncStarted;
    SyncNeverClaims(s, y, claimedAt, x);
  }

  lemma EndedNeverClaims(s: Station, y: ExecutionId, clean: bool, endedAt: Time, ms: int, now: Time, x: ExecutionId)
    requires InState(s, x, Accepted)
    ensures !InState(SyncEnded(s, y, clean, endedAt, ms, now), x, Claimed)
  {
    hide Evidence;
  }

  lemma SettleNeverClaims(s: Station, y: ExecutionId, token: Token, evidenceAt: Time, ms: int, now: Time, x: ExecutionId)
    requires InState(s, x, Accepted)
    ensures !InState(BootSettle(s, y, token, evidenceAt, ms, now), x, Claimed)
  {
    hide Redispatch, StaleNow, AirInterrupted;
    if y in s.Executions() {
      var e := s.Executions()[y];
      if e.state.Started? && e.token.Some? {
        InterruptedNeverClaims(s, y, e.token.value, Later(evidenceAt, e.startedAt), ms, now, x);
      } else if y in s.publications && InHand(e.state) {
        RedispatchNeverClaims(s, y, token, now, x);
      }
    }
  }

  lemma InterruptedNeverClaims(s: Station, y: ExecutionId, token: Token, endedAt: Time, ms: int, now: Time, x: ExecutionId)
    requires InState(s, x, Accepted)
    ensures !InState(WithDomain(s, AirInterrupted(s.domain, y, token, endedAt, Some(ms), now).domain), x, Claimed)
  {
  }

  lemma HeldNeverClaims(s: Station, y: ExecutionId, token: Token, now: Time, x: ExecutionId)
    requires InState(s, x, Accepted)
    ensures !InState(HeldStep(s, y, token, now), x, Claimed)
  {
    hide Redispatch, StaleNow, InsertionOf;
    if y in s.Executions() && y in s.publications && InHand(s.Executions()[y].state) {
      RedispatchNeverClaims(s, y, token, now, x);
    }
  }

  lemma AuthorizeClaims(s: Station, item: LogItemId, named: bool, now: Time, x: ExecutionId)
    requires InState(s, x, Accepted) && InState(AuthorizeOpen(s, item, named, now), x, Claimed)
    ensures Judge(s, item, named) && s.insertions[item].execution == x && item in s.logItems
  {
    hide GateOpen;
  }

  lemma SameRowsNeverClaim(s: Station, step: Step, now: Time)
    requires Enabled(s, step)
    requires step.Published? || step.TrackDeleted? || step.FileLost? || step.LogItemDeleted? ||
             step.PlaybackClaimed? || step.DeckBuilt? || step.AirStarts? || step.Restarted? || step.Booted?
    ensures Next(s, step, now).domain == s.domain
  {
    hide Serve, PublicationFails, Dispatch, Deliver, AuthorizeOpen, ReportNotAired, SyncStarted, SyncEnded, BootSync,
         BootSettle, HeldStep;
  }

  function MessageInputs(cs: seq<Component>): seq<AssemblyInput> {
    seq(|cs|, i requires 0 <= i < |cs| => MessageInput(PartOf(cs[i])))
  }

  /** The instant an execution is claimed, the bytes published for it are proven to be the aggregate of exactly
      the messages active at that instant, in canonical order, behind the frozen stinger pin if there is one. */
  lemma ClaimPlaysTheActiveSet(s: Station, run: seq<Moment>, m: Moment, x: ExecutionId)
    requires Initial(s)
    requires InState(After(s, run), x, Accepted) && InState(Take(After(s, run), m), x, Claimed)
    ensures var n := After(s, run);
            var e := n.Executions()[x];
            && e.generation == n.domain.policy.generation && GateOpen(n)
            && x in n.publications && e.mix == Some(n.publications[x].media)
            && n.publications[x].media.provenance.Some?
            && n.publications[x].media.provenance.value.inputs ==
                 (if e.snapshot.stinger.Some? then [StingerInput(e.snapshot.stinger.value)] else []) +
                 MessageInputs(Ordered(ActiveComponents(n.domain.messages)))
  {
    hide Initial, After, Next, Ordered, ActiveComponents, DomainOk, AiringOk;
    var n := After(s, run);
    ReachableOk(s, run);
    OnlyAuthorityClaims(n, m.step, m.now, x);
    PublishedMedia(n, x);
    CurrentFroze(n.domain, x);
    RowFacts(n.domain, x);
  }

  // -- generation, limits and cadence -------------------------------------------------------------------------------

  lemma CurrentFroze(d: Domain, x: ExecutionId)
    requires DomainOk(d) && x in d.executions && d.executions[x].generation == d.policy.generation
    ensures d.executions[x].snapshot.components == Ordered(ActiveComponents(d.messages))
  {
    hide MessagesOk, ExecutionsOk, CadenceOk, HistoryOk, OwnedOk, FrozenOk, Ordered, ActiveComponents;
    assert CurrentContent(d, d.executions[x]);
  }

  /** Same generation, same content: an execution of the policy's generation froze exactly the messages active
      now with their media, each once, in canonical order. */
  lemma GenerationFixesContent(s: Station, run: seq<Moment>, x: ExecutionId)
    requires Initial(s)
    requires var d := After(s, run).domain;
             x in d.executions && d.executions[x].generation == d.policy.generation
    ensures var d := After(s, run).domain;
            var frozen := d.executions[x].snapshot.components;
            && Sorted(frozen, Precedes) && multiset(frozen) == multiset(ActiveComponents(d.messages))
            && d.executions[x].digest == DigestOf(d.executions[x].snapshot)
  {
    hide Initial, After, AiringOk, DomainOk, Ordered, ActiveComponents;
    ReachableOk(s, run);
    var d := After(s, run).domain;
    CurrentFroze(d, x);
    OrderedIsTheSet(ActiveComponents(d.messages));
    RowFacts(d, x);
  }

  /** Everything the domain still owns is current and fits the limits in force now, even after they were lowered. */
  lemma OwnedIsCurrentAndFits(s: Station, run: seq<Moment>, x: ExecutionId)
    requires Initial(s)
    requires var d := After(s, run).domain; x in d.executions && Prestart(d.executions[x].state)
    ensures var d := After(s, run).domain;
            var e := d.executions[x];
            && e.generation == d.policy.generation
            && |e.snapshot.components| <= d.policy.limits.maxActive
            && (forall c :: c in e.snapshot.components ==> MessageFits(c, d.policy.limits))
            && e.snapshot.accountedMs <= d.policy.limits.maxAggregateSeconds * 1000
            && (e.state.Ready? ==> e.mix.Some? && e.mix.value.ms.Some? &&
                                   0 < e.mix.value.ms.value <= d.policy.limits.maxAggregateSeconds * 1000)
  {
    hide Initial, After, AiringOk, DomainOk, MessageFits;
    ReachableOk(s, run);
    RowFacts(After(s, run).domain, x);
  }

  /** Every CHECK and UNIQUE constraint holds of every committed state. */
  lemma ConstraintsHold(s: Station, run: seq<Moment>)
    requires Initial(s)
    ensures var d := After(s, run).domain;
            && PolicyOk(d.policy)
            && (forall m :: m in d.messages ==> MessageRowOk(d.messages[m]))
            && (forall a, b :: BothActive(d.messages, a, b) && SameSlot(d.messages[a], d.messages[b]) ==> a == b)
            && (forall x :: x in d.executions ==> ExecutionRowOk(d.executions[x]))
            && (forall a, b :: BothUnfinished(d.executions, a, b) ==> a == b)
            && (forall a, b :: SameToken(After(s, run), a, b) ==> a == b)
  {
    hide Initial, After, MessageRowOk, ExecutionRowOk, ContentOk, CadenceOk, HistoryOk, OwnedOk, DecksOk, AirOk,
         IssuedOk, PublicationsOk;
    ReachableOk(s, run);
  }

  /** An ACTIVE message's due time is its activation, or the end evidence of the last airing applied to it plus
      its frozen interval. */
  lemma DueTimesAreAnchored(s: Station, run: seq<Moment>, id: MessageId)
    requires Initial(s)
    requires var d := After(s, run).domain; id in d.messages && d.messages[id].state.Active?
    ensures Anchored(After(s, run).domain, id)
  {
    hide Initial, After, AiringOk, MessagesOk, ExecutionsOk, ContentOk, HistoryOk, OwnedOk;
    ReachableOk(s, run);
  }
}
