/** Monitoring's view of the running worker and the reader that trusts nothing else: what
    active_messages/supervision.py (through monitoring/services/probes.py) writes, and what
    active_messages/diagnostics.py accepts as having been written by it. */
module Diagnostics {
  import opened Common
  import opened Heartbeat

  const START_SLACK := 2.0
  const STARTUP_GRACE := 90.0

  // -- rounding -----------------------------------------------------------------------------------------------

  function Nearest(y: real): int {
    var f := y.Floor;
    var part := y - f as real;
    if part < 0.5 || (part == 0.5 && f % 2 == 0) then f else f + 1
  }

  /** `round(x, 1)`: to the nearest tenth, ties to the even one. */
  function RoundTenth(x: real): real {
    Nearest(x * 10.0) as real / 10.0
  }

  lemma NearestBounds(y: real, n: int)
    ensures y <= n as real ==> Nearest(y) <= n
    ensures y >= n as real ==> Nearest(y) >= n
    ensures y == n as real ==> Nearest(y) == n
  {
    var f := y.Floor;
    assert f as real <= y < f as real + 1.0;
    if y <= n as real {
      assert f <= n;
      if f == n {
        assert y == n as real;
      }
    }
  }

  /** Rounding never crosses a bound that is itself a whole number of tenths. */
  lemma RoundingKeepsBounds(x: real, bound: real)
    requires bound * 10.0 == (bound * 10.0).Floor as real
    ensures x <= bound ==> RoundTenth(x) <= bound
    ensures x >= bound ==> RoundTenth(x) >= bound
    ensures x == bound ==> RoundTenth(x) == bound
  {
    NearestBounds(x * 10.0, (bound * 10.0).Floor);
  }

  predicate Tenths(age: real) {
    RoundTenth(age) == age
  }

  /** A rounded age is a whole number of tenths, and rounding it again changes nothing. */
  lemma RoundedIsTenths(x: real)
    ensures Tenths(RoundTenth(x))
  {
    var n := Nearest(x * 10.0);
    assert RoundTenth(x) * 10.0 == n as real;
    NearestBounds(n as real, n);
  }

  // -- the producer ---------------------------------------------------------------------------------------------

  /** `belongs`: the process systemd is running wrote this document. */
  predicate Belongs(d: Document, pid: Option<int>, processStart: Option<real>) {
    && pid.Some? && pid.value > 0 && d.pid == pid.value
    && processStart.Some? && Timestamp(processStart.value)
    && d.startedAt >= processStart.value - START_SLACK
  }

  /** What is shown of a bound heartbeat. */
  datatype Evidence = Evidence(phase: Phase, outcome: Option<PassResult>, code: string, execution: Option<nat>, age: real)

  datatype UnitState = Active | Activating | Failed | Inactive
  datatype Reason = Unit(UnitReason) | ObserverError | IdentityUnavailable | StartingUp | NoDocument | NotCurrent
                  | MalformedDocument | Bound(condition: Condition)
  datatype UnitReason = UnitStarting | UnitRestarting | UnitFailed | UnitInactive

  /** The worker's entry in Monitoring's state. */
  datatype Entry = Entry(status: Status, unit: UnitState, autoRestart: bool, restarts: Option<nat>, reason: Reason,
                         airing: Option<bool>, problem: bool, error: bool, shown: Option<Evidence>)

  datatype Observation = Observation(status: Status, reason: Reason, problem: bool, shown: Option<Evidence>)

  predicate KnownStart(processStart: Option<real>) {
    processStart.Some? && Timestamp(processStart.value)
  }

  function Shown(d: Document, now: real): Evidence {
    Evidence(d.phase, d.result, d.code, d.execution, RoundTenth(now - d.checkedAt))
  }

  /** `observe`. */
  function Observe(reading: Reading, pid: Option<int>, processStart: Option<real>, now: real): Observation {
    var verdict := Assess(reading, now);
    var starting := KnownStart(processStart) && now - processStart.value < STARTUP_GRACE;
    if verdict.condition.MalformedHeartbeat? then Observation(Critical, MalformedDocument, true, None)
    else if pid.None? || pid.value <= 0 || !KnownStart(processStart) then
      Observation(Unknown, IdentityUnavailable, false, None)
    else if verdict.condition.NoHeartbeat? then
      if starting then Observation(Unknown, StartingUp, false, None) else Observation(Critical, NoDocument, false, None)
    else if reading.Parsed? && !Belongs(reading.document, pid, processStart) then
      if starting then Observation(Unknown, StartingUp, false, None) else Observation(Critical, NotCurrent, false, None)
    else if reading.Parsed? then
      Observation(verdict.status, Bound(verdict.condition), false, Some(Shown(reading.document, now)))
    else Observation(Critical, NoDocument, false, None)
  }

  function UnitReasonOf(unit: UnitState, autoRestart: bool): UnitReason {
    if unit.Activating? && !autoRestart then UnitStarting
    else if unit.Activating? || autoRestart then UnitRestarting
    else if unit.Failed? then UnitFailed
    else UnitInactive
  }

  /** `_active_message_worker_readiness`, before the poller holds a worse status back. `crashed` says the observer
      itself failed; `before` is the restart count of the previous poll. */
  function Probe(unit: UnitState, autoRestart: bool, restarts: Option<nat>, before: Option<nat>, airing: bool,
                 crashed: bool, reading: Reading, pid: Option<int>, processStart: Option<real>, now: real): Entry
  {
    if !unit.Active? then
      var why := UnitReasonOf(unit, autoRestart);
      Entry(if why.UnitStarting? then Unknown else Critical, unit, autoRestart, restarts, Unit(why), None, false, false, None)
    else if crashed then Entry(Unknown, unit, autoRestart, restarts, ObserverError, None, false, true, None)
    else
      var o := Observe(reading, pid, processStart, now);
      var rose := o.status.Ok? && restarts.Some? && before.Some? && restarts.value > before.value;
      Entry(if rose then Warning else o.status, unit, autoRestart, restarts,
            if rose then Bound(Restarted) else o.reason, Some(airing), o.problem, false, o.shown)
  }

  /** The poller writes "ok" and "unknown" at once, and may hold a warning or critical at the last stable status. */
  predicate Debounced(raw: Status, written: Status) {
    raw.Ok? || raw.Unknown? ==> written == raw
  }

  // -- the consumer -------------------------------------------------------------------------------------------------

  predicate OkCondition(c: Condition) {
    c.IdlePass? || c.BusyPass? || c.RetryBackoff? || c.PlayoutInFlight? || c.Working? || c.ReadyWaitingForGate? || c.InRender?
  }

  /** The outcome table: what a fresh, non-rendering heartbeat with this outcome can mean. */
  function OutcomeReasons(outcome: Option<PassResult>, code: string): set<Condition> {
    match outcome
    case Some(Errored) => {DatabaseErrors, Malfunction}
    case Some(Blocked) => {BlockedComposition}
    case Some(Busy) => {BusyPass, LockHeldElsewhere}
    case Some(Backoff) => {RetryBackoff}
    case Some(Retry) => {RetryBackoff}
    case Some(Playing) => {PlayoutInFlight}
    case Some(Idle) => if code == "gated" then {ReadyWaitingForGate} else {IdlePass}
    case None => {IdlePass}
    case Some(_) => {Working}
  }

  predicate Lifts(outcome: Option<PassResult>) {
    outcome.None? || !(outcome.value.Errored? || outcome.value.Blocked?)
  }

  /** `assessed_reasons` of a whole reading. */
  function AssessedReasons(e: Evidence): set<Condition> {
    if e.phase.Stopped? then {StoppedCleanly}
    else
      var crash := if e.age <= CRASH_WINDOW then {CrashLooping} else {};
      if e.phase.Rendering? then
        crash + (if e.age >= 0.0 then {RenderOverdue} else {}) +
        (if e.age <= RENDER_DEADLINE_MAX
         then {InRender, Restarted} + (if e.age <= CRASH_WINDOW then {HistoryUnverified} else {}) else {})
      else
        crash + (if e.age >= STALE_AFTER then {Stale} else {}) +
        (if e.age <= STALE_AFTER
         then OutcomeReasons(e.outcome, e.code) +
              (if Lifts(e.outcome)
               then {Restarted} + (if e.phase.Starting? && e.age < 0.0 then {} else {HistoryUnverified})
               else {})
         else {})
  }

  /** The writer's state relations that survive serialization. */
  predicate WriterRelations(e: Evidence) {
    && CodeOk(e.code) && e.age >= -MAX_FUTURE_SKEW
    && (e.outcome.None? ==> e.code == "" && !e.phase.Polling? && (e.execution.Some? ==> e.phase.Rendering?))
    && (e.outcome.Some? ==> !e.phase.Starting?)
    && (e.phase.Rendering? ==> e.execution.Some?)
  }

  /** `_bound_heartbeat` accepts the evidence for this reason. */
  predicate AcceptsBound(c: Condition, e: Evidence) {
    WriterRelations(e) && c in AssessedReasons(e)
  }

  datatype Identity = UnknownIdentity | Mismatch | Verified
  datatype Currency = UnknownBeat | MissingBeat | NotCurrentBeat | MalformedBeat | CurrentBeat | StaleBeat
  datatype Believed = Believed(status: Status, reason: Reason, identity: Identity, beat: Currency)

  predicate BoundCondition(c: Condition) {
    !c.NoHeartbeat? && !c.MalformedHeartbeat?
  }

  predicate FreshCondition(c: Condition) {
    BoundCondition(c) && !c.Stale? && !c.StoppedCleanly? && !c.CrashLooping? && !c.RenderOverdue?
  }

  /** The status a reason that is never held back must be written with. */
  predicate StatusFits(reason: Reason, status: Status) {
    && (reason == Unit(UnitStarting) || reason.StartingUp? || reason.ObserverError? || reason.IdentityUnavailable? ==>
          status.Unknown?)
    && (reason.Bound? && OkCondition(reason.condition) ==> status.Ok?)
  }

  /** `_worker_evidence`: None is an entry it refuses to trust. */
  function WorkerEvidence(e: Entry): Option<Believed> {
    if !StatusFits(e.reason, e.status) then None
    else if !e.unit.Active? then
      if e.reason != Unit(UnitReasonOf(e.unit, e.autoRestart)) || e.shown.Some? || e.airing.Some? then None
      else Some(Believed(e.status, e.reason, UnknownIdentity, UnknownBeat))
    else if e.reason.Unit? || (e.reason.Bound? && !BoundCondition(e.reason.condition)) then None
    else if !e.reason.ObserverError? && e.airing.None? then None
    else if !e.reason.Bound? then
      if (e.reason.MalformedDocument? && !e.problem) || (e.reason.ObserverError? && !e.error) || e.shown.Some? then None
      else Some(Believed(e.status, e.reason, if e.reason.NotCurrent? then Mismatch else UnknownIdentity,
             if e.reason.NoDocument? then MissingBeat else if e.reason.NotCurrent? then NotCurrentBeat
             else if e.reason.MalformedDocument? then MalformedBeat else UnknownBeat))
    else if e.shown.None? || !AcceptsBound(e.reason.condition, e.shown.value) then None
    else if e.reason.condition.Restarted? && !(e.restarts.Some? && e.restarts.value >= 1) then None
    else if e.status.Unknown? then Some(Believed(e.status, e.reason, UnknownIdentity, UnknownBeat))
    else Some(Believed(e.status, e.reason, Verified,
           if FreshCondition(e.reason.condition) then CurrentBeat
           else if e.reason.condition.Stale? then StaleBeat else UnknownBeat))
  }

  // -- they agree ---------------------------------------------------------------------------------------------------

  /** No start is in the window of an observation more than the window after the heartbeat itself. */
  lemma {:induction false} NoStartCounts(starts: seq<real>, checkedAt: real, now: real)
    requires AllBefore(starts, checkedAt) && now - checkedAt > CRASH_WINDOW
    ensures CountIn(starts, now) == 0
  {
    if starts != [] {
      NoStartCounts(starts[..|starts| - 1], checkedAt, now);
    }
  }

  /** What the verdict can be, in terms of what is shown of the heartbeat after rounding its age. */
  lemma VerdictIsAssessed(d: Document, now: real)
    requires Valid(d) && d.checkedAt <= now + MAX_FUTURE_SKEW
    ensures AcceptsBound(AssessValid(d, now).condition, Shown(d, now))
    ensures AssessValid(d, now).status.Ok? ==> AcceptsBound(Restarted, Shown(d, now))
    ensures AssessValid(d, now).status.Ok? <==> OkCondition(AssessValid(d, now).condition)
    ensures BoundCondition(AssessValid(d, now).condition)
  {
    var age := now - d.checkedAt;
    RoundingKeepsBounds(age, -MAX_FUTURE_SKEW);
    RoundingKeepsBounds(age, 0.0);
    RoundingKeepsBounds(age, STALE_AFTER);
    RoundingKeepsBounds(age, CRASH_WINDOW);
    RoundingKeepsBounds(age, RENDER_DEADLINE_MAX);
    assert AllBefore(d.recentStarts, d.checkedAt);
    if age > CRASH_WINDOW {
      NoStartCounts(d.recentStarts, d.checkedAt, now);
    }
  }

  /** Whatever the producer writes, the consumer accepts; and it calls the identity verified only when the document is
      valid and the running process wrote it. */
  lemma ProducerIsAccepted(unit: UnitState, autoRestart: bool, restarts: Option<nat>, before: Option<nat>, airing: bool,
                           crashed: bool, reading: Reading, pid: Option<int>, processStart: Option<real>, now: real,
                           written: Status)
    requires Debounced(Probe(unit, autoRestart, restarts, before, airing, crashed, reading, pid, processStart, now).status,
                       written)
    ensures var believed := WorkerEvidence(Probe(unit, autoRestart, restarts, before, airing, crashed, reading, pid,
                                                 processStart, now).(status := written));
            && believed.Some? && believed.value.status == written
            && (believed.value.identity.Verified? ==>
                  reading.Parsed? && Valid(reading.document) && Belongs(reading.document, pid, processStart))
            && (believed.value.beat.CurrentBeat? ==> Recent(reading, now))
  {
    hide Valid, RoundTenth, AcceptsBound, Timestamp, Belongs, Observe, Recent, AssessValid, Shown;
    ObserveShape(reading, pid, processStart, now);
  }

  /** The heartbeat is of a render in progress, or no older than the staleness bound. */
  predicate Recent(reading: Reading, now: real) {
    reading.Parsed? && (reading.document.phase.Rendering? || now - reading.document.checkedAt <= STALE_AFTER)
  }

  lemma ObserveShape(reading: Reading, pid: Option<int>, processStart: Option<real>, now: real)
    ensures var o := Observe(reading, pid, processStart, now);
            if o.reason.Bound? then
              && reading.Parsed? && Valid(reading.document) && Belongs(reading.document, pid, processStart)
              && o.shown.Some? && AcceptsBound(o.reason.condition, o.shown.value)
              && (o.status.Ok? ==> AcceptsBound(Restarted, o.shown.value))
              && (o.status.Ok? <==> OkCondition(o.reason.condition))
              && BoundCondition(o.reason.condition) && !o.reason.condition.Restarted?
              && (FreshCondition(o.reason.condition) ==> Recent(reading, now))
            else
              && !o.reason.Unit? && !o.reason.ObserverError? && o.shown.None? && !o.status.Ok?
              && (o.reason.StartingUp? || o.reason.IdentityUnavailable? ==> o.status.Unknown?)
              && (o.reason.MalformedDocument? ==> o.problem)
  {
    hide Valid, RoundTenth, AcceptsBound, Timestamp, Belongs, AssessValid, Shown, Recent;
    if reading.Parsed? && Assess(reading, now).condition != MalformedHeartbeat {
      MalformedOnlyWhenInvalid(reading.document, now);
      VerdictIsAssessed(reading.document, now);
      FreshIsRecent(reading.document, now);
    }
  }

  lemma MalformedOnlyWhenInvalid(d: Document, now: real)
    requires Assess(Parsed(d), now).condition != MalformedHeartbeat
    ensures Valid(d) && d.checkedAt <= now + MAX_FUTURE_SKEW && Assess(Parsed(d), now) == AssessValid(d, now)
  {
  }

  lemma FreshIsRecent(d: Document, now: real)
    ensures FreshCondition(AssessValid(d, now).condition) ==> Recent(Parsed(d), now)
    ensures !AssessValid(d, now).condition.Restarted?
  {
  }

  // -- and the consumer accepts nothing else ------------------------------------------------------------------------

  const SOME_TIME := 2000000000.0

  function Blank(e: Evidence, startedAt: real, previous: Previous, starts: seq<real>, repeats: int): Document {
    var cycle := if e.outcome.None? then 0 else 20;
    Document(1, startedAt, SOME_TIME, starts, previous, e.phase, cycle, e.outcome, e.code, e.execution,
             if cycle == 0 then 0 else repeats,
             if e.outcome.Some? && e.outcome.value.Errored? then repeats else 0, None,
             if e.phase.Rendering? then Some(SOME_TIME + RENDER_DEADLINE_MAX) else None)
  }

  /** A valid document and an instant at which the producer writes this reason and shows this evidence. "restarted" it
      writes over any verdict that would be "ok", when the unit's restart count rose. */
  ghost predicate Realizes(d: Document, now: real, c: Condition, e: Evidence) {
    && Valid(d) && d.checkedAt <= now + MAX_FUTURE_SKEW && Shown(d, now) == e
    && if c.Restarted? then AssessValid(d, now).status.Ok? else AssessValid(d, now).condition == c
  }

  lemma OneStart(s: real, now: real)
    ensures CountIn([s], now) <= 1
  {
  }

  lemma FourStarts(a: real, b: real, now: real)
    requires InWindow(a, now)
    ensures CountIn([a, a, a, b], now) >= 3
  {
    CountAll([a, a, a], now);
    CountAppend([a, a, a], b, now);
    assert [a, a, a] + [b] == [a, a, a, b];
  }

  /** A crash loop can show any age up to the window, even from a future-dated heartbeat. */
  lemma CrashIsRealized(e: Evidence) returns (d: Document, now: real)
    requires WriterRelations(e) && Tenths(e.age) && !e.phase.Stopped? && e.age <= CRASH_WINDOW
    ensures Realizes(d, now, CrashLooping, e)
  {
    now := SOME_TIME + e.age;
    var start := if e.age >= 0.0 then SOME_TIME else now;
    d := Blank(e, SOME_TIME, UncleanEnd, [start, start, start, SOME_TIME], 1);
    FourStarts(start, SOME_TIME, now);
  }

  lemma RenderIsRealized(e: Evidence, c: Condition) returns (d: Document, now: real)
    requires WriterRelations(e) && Tenths(e.age) && e.phase.Rendering? && c in AssessedReasons(e)
    requires c.RenderOverdue? || c.InRender? || c.HistoryUnverified?
    ensures Realizes(d, now, c, e)
  {
    now := SOME_TIME + e.age;
    var start := if e.age >= 0.0 then SOME_TIME else now;
    d := Blank(e, start, if c.HistoryUnverified? then MalformedEnd else NoHistory, [start], 1);
    OneStart(start, now);
    if c.RenderOverdue? {
      if e.age == 0.0 { now := SOME_TIME + 0.04; }
      var late := now - SOME_TIME;
      d := d.(renderDeadline := Some(SOME_TIME + if late > 2.0 then 1.0 else late / 2.0));
      OneStart(start, now);
      NearestBounds(0.4, 0);
    }
  }

  lemma StaleIsRealized(e: Evidence) returns (d: Document, now: real)
    requires WriterRelations(e) && Tenths(e.age) && !e.phase.Rendering? && !e.phase.Stopped? && e.age >= STALE_AFTER
    ensures Realizes(d, now, Stale, e)
  {
    now := SOME_TIME + if e.age == STALE_AFTER then STALE_AFTER + 0.04 else e.age;
    d := Blank(e, SOME_TIME, NoHistory, [SOME_TIME], 1);
    OneStart(SOME_TIME, now);
    assert (600.4).Floor == 600;
  }

  lemma OutcomeIsRealized(e: Evidence, c: Condition) returns (d: Document, now: real)
    requires WriterRelations(e) && Tenths(e.age) && !e.phase.Rendering? && !e.phase.Stopped? && e.age <= STALE_AFTER
    requires c in OutcomeReasons(e.outcome, e.code)
    ensures Realizes(d, now, c, e)
  {
    now := SOME_TIME + e.age;
    d := Blank(e, SOME_TIME, NoHistory, [SOME_TIME], if c.Malfunction? then 3 else if c.LockHeldElsewhere? then 12 else 1);
    OneStart(SOME_TIME, now);
  }

  lemma UnverifiedIsRealized(e: Evidence) returns (d: Document, now: real)
    requires WriterRelations(e) && Tenths(e.age) && !e.phase.Rendering? && !e.phase.Stopped? && e.age <= STALE_AFTER
    requires Lifts(e.outcome) && !(e.phase.Starting? && e.age < 0.0)
    ensures Realizes(d, now, HistoryUnverified, e)
  {
    now := SOME_TIME + e.age;
    var start := if e.age >= 0.0 then SOME_TIME else now;
    d := Blank(e, start, MalformedEnd, [start], 1);
    OneStart(start, now);
  }

  lemma StoppedIsRealized(e: Evidence) returns (d: Document, now: real)
    requires WriterRelations(e) && Tenths(e.age) && e.phase.Stopped?
    ensures Realizes(d, now, StoppedCleanly, e)
  {
    now := SOME_TIME + e.age;
    d := Blank(e, SOME_TIME, NoHistory, [SOME_TIME], 1);
  }

  /** An outcome that can be lifted has a reading that is "ok". */
  function OkReading(outcome: Option<PassResult>, code: string): (c: Condition)
    requires Lifts(outcome)
    ensures c in OutcomeReasons(outcome, code) && OkCondition(c)
  {
    match outcome
    case None => IdlePass
    case Some(Busy) => BusyPass
    case Some(Backoff) => RetryBackoff
    case Some(Retry) => RetryBackoff
    case Some(Playing) => PlayoutInFlight
    case Some(Idle) => if code == "gated" then ReadyWaitingForGate else IdlePass
    case Some(_) => Working
  }

  lemma RestartIsRealized(e: Evidence) returns (d: Document, now: real)
    requires WriterRelations(e) && Tenths(e.age) && Restarted in AssessedReasons(e)
    ensures Realizes(d, now, Restarted, e)
  {
    if e.phase.Rendering? {
      d, now := RenderIsRealized(e, InRender);
    } else {
      d, now := OutcomeIsRealized(e, OkReading(e.outcome, e.code));
    }
    hide WriterRelations, Tenths, Shown, AssessValid;
    VerdictIsAssessed(d, now);
  }

  /** The independently written reader accepts no bound reason the producer could not have written: for every reading it
      accepts, of an age that was rounded, some valid heartbeat, at some instant, is assessed so and shown so. */
  lemma AcceptedIsProducible(c: Condition, e: Evidence) returns (d: Document, now: real)
    requires AcceptsBound(c, e) && Tenths(e.age)
    ensures Realizes(d, now, c, e)
  {
    hide Realizes, WriterRelations, Tenths;
    if e.phase.Stopped? {
      d, now := StoppedIsRealized(e);
    } else if c.Restarted? {
      d, now := RestartIsRealized(e);
    } else if c.CrashLooping? {
      d, now := CrashIsRealized(e);
    } else if e.phase.Rendering? {
      d, now := RenderIsRealized(e, c);
    } else if c.Stale? {
      d, now := StaleIsRealized(e);
    } else if c.HistoryUnverified? {
      d, now := UnverifiedIsRealized(e);
    } else {
      d, now := OutcomeIsRealized(e, c);
    }
  }

  /** Some valid heartbeat produces a bound reading if and only if the reader accepts it and its age is a whole number of
      tenths, the only thing about a reading the reader takes on trust. */
  lemma AcceptedExactly(c: Condition, e: Evidence)
    ensures (exists d, now :: Realizes(d, now, c, e)) <==> AcceptsBound(c, e) && Tenths(e.age)
  {
    if AcceptsBound(c, e) && Tenths(e.age) {
      var d, now := AcceptedIsProducible(c, e);
    }
    if exists d, now :: Realizes(d, now, c, e) {
      var d, now :| Realizes(d, now, c, e);
      VerdictIsAssessed(d, now);
      RoundedIsTenths(now - d.checkedAt);
    }
  }
}
