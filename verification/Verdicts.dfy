/** The readiness verdict as a table on the heartbeat document and the clock alone, carried through what Monitoring writes
    and what the reader of its state believes. */
module Verdicts {
  import opened Common
  import opened Heartbeat
  import opened Diagnostics
  import Recorder

  // -- the table ----------------------------------------------------------------------------------------------------

  /** Three of the recorded starts lie in the fifteen minutes before `now`. */
  ghost predicate ThreeStarts(d: Document, now: real) {
    exists i, j, k :: 0 <= i < j < k < |d.recentStarts| && Lately(d.recentStarts[i], now) && Lately(d.recentStarts[j], now) &&
                      Lately(d.recentStarts[k], now)
  }

  predicate Lately(start: real, now: real) {
    0.0 <= now - start <= 900.0
  }

  /** The worker is not running as it should: it stopped, keeps restarting, renders past its deadline, has not been heard of
      for a minute while it does not render, or failed three passes in a row. */
  ghost predicate Dead(d: Document, now: real) {
    || d.phase.Stopped? || ThreeStarts(d, now)
    || (d.phase.Rendering? && d.renderDeadline.Some? && now > d.renderDeadline.value)
    || (!d.phase.Rendering? && (now - d.checkedAt > 60.0 || d.errors >= 3))
  }

  /** Its last pass shows trouble: one or two failures, a blocked composition, or twelve passes behind another's lock. */
  predicate LastPassTroubled(d: Document) {
    !d.phase.Rendering? && (1 <= d.errors <= 2 || d.result == Some(Blocked) || (d.result == Some(Busy) && d.repeats >= 12))
  }

  /** It started lately, and how its predecessor ended could not be read. */
  predicate Unverified(d: Document, now: real) {
    d.previous.MalformedEnd? && Lately(d.startedAt, now)
  }

  lemma {:induction false} CountTells(starts: seq<real>, now: real)
    ensures CountIn(starts, now) >= 1 <==> exists i :: 0 <= i < |starts| && Lately(starts[i], now)
    ensures CountIn(starts, now) >= 2 <==>
              exists i, j :: 0 <= i < j < |starts| && Lately(starts[i], now) && Lately(starts[j], now)
    ensures CountIn(starts, now) >= 3 <==>
              exists i, j, k :: 0 <= i < j < k < |starts| && Lately(starts[i], now) && Lately(starts[j], now) &&
                                Lately(starts[k], now)
  {
    if starts != [] {
      var rest, last := starts[..|starts| - 1], starts[|starts| - 1];
      CountTells(rest, now);
      assert forall i :: 0 <= i < |rest| ==> starts[i] == rest[i];
      assert InWindow(last, now) == Lately(last, now);
      hide CountIn, Lately, InWindow;
      CountStep(starts, now);
    }
  }

  lemma CountStep(starts: seq<real>, now: real)
    requires starts != []
    ensures CountIn(starts, now) == CountIn(starts[..|starts| - 1], now) + if InWindow(starts[|starts| - 1], now) then 1 else 0
  {
  }

  /** The verdict on a valid document, for every document and instant. */
  lemma VerdictTable(d: Document, now: real)
    requires Valid(d)
    ensures var v := AssessValid(d, now);
            && (v.status.Critical? <==> Dead(d, now))
            && (v.status.Warning? <==> !Dead(d, now) && (LastPassTroubled(d) || Unverified(d, now)))
            && !v.status.Unknown?
  {
    hide ThreeStarts, CountIn;
    StartsCounted(d, now);
  }

  lemma StartsCounted(d: Document, now: real)
    ensures CountIn(d.recentStarts, now) >= 3 <==> ThreeStarts(d, now)
  {
    CountTells(d.recentStarts, now);
  }

  /** The document is of a worker that runs, has not crashed in a loop, and is heard of in time. */
  ghost predicate Alive(d: Document, now: real) {
    !d.phase.Stopped? && !ThreeStarts(d, now) &&
    if d.phase.Rendering? then d.renderDeadline.Some? ==> now <= d.renderDeadline.value else now - d.checkedAt <= 60.0
  }

  /** Its last pass is read when it is alive and does not render. */
  ghost predicate ReadsAs(d: Document, now: real, result: PassResult) {
    Alive(d, now) && !d.phase.Rendering? && d.result == Some(result)
  }

  /** Which condition is named, for every condition there is. */
  lemma ConditionTable(d: Document, now: real)
    requires Valid(d)
    ensures var c := AssessValid(d, now).condition;
            var fine := !LastPassTroubled(d) && !Unverified(d, now);
            && (c.StoppedCleanly? <==> d.phase.Stopped?)
            && (c.CrashLooping? <==> !d.phase.Stopped? && ThreeStarts(d, now))
            && (c.RenderOverdue? <==> !d.phase.Stopped? && !ThreeStarts(d, now) && d.phase.Rendering? && !Alive(d, now))
            && (c.Stale? <==> !d.phase.Stopped? && !ThreeStarts(d, now) && !d.phase.Rendering? && !Alive(d, now))
            && (c.Malfunction? <==> ReadsAs(d, now, Errored) && d.errors >= 3)
            && (c.DatabaseErrors? <==> ReadsAs(d, now, Errored) && d.errors <= 2)
            && (c.BlockedComposition? <==> ReadsAs(d, now, Blocked))
            && (c.LockHeldElsewhere? <==> ReadsAs(d, now, Busy) && d.repeats >= 12)
            && (c.HistoryUnverified? <==>
                  Alive(d, now) && !LastPassTroubled(d) && (d.phase.Rendering? || d.errors == 0) && Unverified(d, now))
            && (c.InRender? <==> Alive(d, now) && d.phase.Rendering? && fine)
            && (c.BusyPass? <==> ReadsAs(d, now, Busy) && fine)
            && (c.RetryBackoff? <==> (ReadsAs(d, now, Backoff) || ReadsAs(d, now, Retry)) && fine)
            && (c.PlayoutInFlight? <==> ReadsAs(d, now, Playing) && fine)
            && (c.ReadyWaitingForGate? <==> ReadsAs(d, now, Idle) && d.code == "gated" && fine)
            && (c.Working? <==> fine && (ReadsAs(d, now, MadeReady) || ReadsAs(d, now, Reused) ||
                                         ReadsAs(d, now, FailedPass) || ReadsAs(d, now, Superseded)))
            && (c.IdlePass? <==> fine && ((ReadsAs(d, now, Idle) && d.code != "gated") ||
                                          (Alive(d, now) && !d.phase.Rendering? && d.result.None?)))
            && !c.NoHeartbeat? && !c.MalformedHeartbeat? && !c.Restarted?
  {
    hide ThreeStarts, CountIn;
    StartsCounted(d, now);
  }

  /** What the last passes were, as the verdict tells them: the recorder's counters lose nothing the table looks at. */
  lemma TroubleIsCounted(d: Document, outcomes: seq<PassResult>, now: real)
    requires Valid(d) && Recorder.Counts(d, outcomes) && Alive(d, now) && !d.phase.Rendering?
    ensures var c := AssessValid(d, now).condition;
            && (c.Malfunction? <==> Recorder.EndsWith(outcomes, 3, Errored))
            && (c.DatabaseErrors? <==> Recorder.EndsWith(outcomes, 1, Errored) && !Recorder.EndsWith(outcomes, 3, Errored))
            && (c.BlockedComposition? <==> Recorder.EndsWith(outcomes, 1, Blocked))
            && (c.LockHeldElsewhere? <==> Recorder.EndsWith(outcomes, 12, Busy))
  {
    ConditionTable(d, now);
    hide AssessValid, Valid, Alive;
    if outcomes != [] {
      Recorder.StreakTells(outcomes, 1);
      Recorder.StreakTells(outcomes, 3);
      Recorder.StreakTells(outcomes, 12);
      LastTells(outcomes, 3, Errored);
      LastTells(outcomes, 12, Busy);
    }
  }

  lemma LastTells(outcomes: seq<PassResult>, n: nat, result: PassResult)
    requires outcomes != [] && n >= 1
    ensures Recorder.EndsWith(outcomes, n, result) ==> outcomes[|outcomes| - 1] == result
  {
  }

  // -- what Monitoring observes -------------------------------------------------------------------------------------

  /** A readable document that no rule rejects, not dated more than thirty seconds ahead. */
  predicate Readable(reading: Reading, now: real) {
    reading.Parsed? && Valid(reading.document) && reading.document.checkedAt <= now + 30.0
  }

  /** The unit has a process whose start is known. */
  predicate Identified(pid: Option<int>, processStart: Option<real>) {
    pid.Some? && pid.value > 0 && processStart.Some? && 946684800.0 <= processStart.value <= 4102444800.0
  }

  /** That process wrote the document. */
  predicate Wrote(d: Document, pid: Option<int>, processStart: Option<real>) {
    Identified(pid, processStart) && d.pid == pid.value && d.startedAt >= processStart.value - 2.0
  }

  /** The observation of an active unit: a broken document is critical whoever wrote it; without a known process nothing can
      be said; a missing or foreign document is excused for the process's first ninety seconds, and critical after; else
      the verdict is the document's. */
  lemma ObserveDoes(reading: Reading, pid: Option<int>, processStart: Option<real>, now: real)
    ensures var o := Observe(reading, pid, processStart, now);
            var absent := reading.Missing? || reading.Unreadable?;
            if !absent && !Readable(reading, now) then o == Observation(Critical, MalformedDocument, true, None)
            else if !Identified(pid, processStart) then o == Observation(Unknown, IdentityUnavailable, false, None)
            else if !absent && Wrote(reading.document, pid, processStart) then
              && o == Observation(o.status, Bound(AssessValid(reading.document, now).condition), false, o.shown)
              && (o.status.Critical? <==> Dead(reading.document, now))
              && (o.status.Warning? <==> !Dead(reading.document, now) &&
                                         (LastPassTroubled(reading.document) || Unverified(reading.document, now)))
              && !o.status.Unknown?
              && o.shown == Some(Evidence(reading.document.phase, reading.document.result, reading.document.code,
                                          reading.document.execution, RoundTenth(now - reading.document.checkedAt)))
            else if now - processStart.value < 90.0 then o == Observation(Unknown, StartingUp, false, None)
            else o == Observation(Critical, if absent then NoDocument else NotCurrent, false, None)
  {
    hide Valid, AssessValid, Dead, LastPassTroubled, Unverified, RoundTenth;
    if Readable(reading, now) {
      VerdictTable(reading.document, now);
      ConditionIsBound(reading.document, now);
    }
  }

  lemma ConditionIsBound(d: Document, now: real)
    requires Valid(d)
    ensures var c := AssessValid(d, now).condition; !c.NoHeartbeat? && !c.MalformedHeartbeat?
  {
    ConditionTable(d, now);
  }

  /** One poll: what systemd and the observer found. */
  datatype Poll = Poll(unit: UnitState, autoRestart: bool, restarts: Option<nat>, before: Option<nat>, airing: bool,
                       crashed: bool, reading: Reading, pid: Option<int>, processStart: Option<real>, now: real)

  function Probed(p: Poll): Entry {
    Probe(p.unit, p.autoRestart, p.restarts, p.before, p.airing, p.crashed, p.reading, p.pid, p.processStart, p.now)
  }

  /** The unit was restarted since the previous poll. */
  predicate RestartedSince(p: Poll) {
    p.restarts.Some? && p.before.Some? && p.restarts.value > p.before.value
  }

  /** What one poll writes: an inactive unit is critical unless it is starting for the first time; an observer that failed
      says nothing; else the observation, and an observed restart makes a healthy worker a warning, nothing worse. */
  lemma ProbeDoes(p: Poll)
    ensures var e, o := Probed(p), Observe(p.reading, p.pid, p.processStart, p.now);
            && e.unit == p.unit && e.autoRestart == p.autoRestart && e.restarts == p.restarts
            && (!p.unit.Active? ==>
                  && e.airing.None? && e.shown.None?
                  && (e.status == if p.unit.Activating? && !p.autoRestart then Unknown else Critical)
                  && (e.reason == Unit(if p.unit.Activating? && !p.autoRestart then UnitStarting
                                       else if p.unit.Activating? || p.autoRestart then UnitRestarting
                                       else if p.unit.Failed? then UnitFailed else UnitInactive)))
            && (p.unit.Active? && p.crashed ==>
                  e.status.Unknown? && e.reason.ObserverError? && e.error && e.airing.None? && e.shown.None?)
            && (p.unit.Active? && !p.crashed ==>
                  && e.airing == Some(p.airing) && e.shown == o.shown && e.problem == o.problem
                  && (o.status.Ok? && RestartedSince(p) ==> e.status.Warning? && e.reason == Bound(Restarted))
                  && (!(o.status.Ok? && RestartedSince(p)) ==> e.status == o.status && e.reason == o.reason))
  {
    hide Observe;
  }

  /** A dead worker is critical, and only a dead one, as long as its own document is read. */
  lemma DeadIsCritical(p: Poll)
    requires p.unit.Active? && !p.crashed && Readable(p.reading, p.now) && Wrote(p.reading.document, p.pid, p.processStart)
    ensures Probed(p).status.Critical? <==> Dead(p.reading.document, p.now)
    ensures Probed(p).status.Ok? <==> !Dead(p.reading.document, p.now) && !LastPassTroubled(p.reading.document) &&
                                      !Unverified(p.reading.document, p.now) && !RestartedSince(p)
    ensures !Probed(p).status.Unknown?
  {
    hide Probe, Observe, Valid, Dead, LastPassTroubled, Unverified;
    ProbeDoes(p);
    ObserveDoes(p.reading, p.pid, p.processStart, p.now);
  }

  // -- what the reader believes -------------------------------------------------------------------------------------

  /** The entry agrees with a poll's in everything the reader looks at. The poller may hold a warning or critical status
      back; whether an airing was open is not looked at when the observer failed, nor the marks of a broken document and of
      a failed observer where they mean nothing; and of a restart count only that there was one. */
  predicate AgreesWith(e: Entry, w: Entry) {
    && Debounced(w.status, e.status) && e.unit == w.unit && e.autoRestart == w.autoRestart && e.reason == w.reason
    && e.shown == w.shown
    && (e.reason == Bound(Restarted) ==> e.restarts == w.restarts)
    && (!e.reason.ObserverError? ==> (e.airing.Some? <==> w.airing.Some?))
    && (e.reason.MalformedDocument? ==> e.problem == w.problem)
    && (e.reason.ObserverError? ==> e.error == w.error)
  }

  lemma AgreementIsEnough(e: Entry, w: Entry)
    requires AgreesWith(e, w)
    ensures WorkerEvidence(e) == WorkerEvidence(w.(status := e.status))
  {
    hide AcceptsBound, UnitReasonOf;
  }

  /** The ages shown are whole tenths of a second, the one thing the reader takes on trust. */
  predicate ShowsTenths(e: Entry) {
    e.shown.Some? ==> Tenths(e.shown.value.age)
  }

  /** A poll that finds this unit, and the observer as said. */
  function PollOf(e: Entry, before: Option<nat>, crashed: bool, reading: Reading, pid: Option<int>, start: Option<real>,
                  now: real): Poll
  {
    Poll(e.unit, e.autoRestart, e.restarts, before, e.airing.GetOr(false), crashed, reading, pid, start, now)
  }

  /** Every entry with no bound reason that the reader trusts is one some poll writes. */
  lemma UnboundIsProducible(e: Entry) returns (p: Poll)
    requires WorkerEvidence(e).Some? && !e.reason.Bound?
    ensures AgreesWith(e, Probed(p))
  {
    var now, start := SOME_TIME, Some(SOME_TIME - 100.0);
    var foreign := Document(2, now, now, [now], NoHistory, Starting, 0, None, "", None, 0, 0, None, None);
    match e.reason
    case Unit(_) => p := PollOf(e, None, false, Missing, None, None, now);
    case ObserverError => p := PollOf(e, None, true, Missing, None, None, now);
    case IdentityUnavailable => p := PollOf(e, None, false, Missing, None, None, now);
    case StartingUp => p := PollOf(e, None, false, Missing, Some(1), Some(now), now);
    case NoDocument => p := PollOf(e, None, false, Missing, Some(1), start, now);
    case NotCurrent => p := PollOf(e, None, false, Parsed(foreign), Some(1), start, now);
    case MalformedDocument => p := PollOf(e, None, false, Broken, Some(1), start, now);
  }

  lemma BoundIsProducible(e: Entry) returns (p: Poll)
    requires WorkerEvidence(e).Some? && e.reason.Bound? && ShowsTenths(e)
    ensures AgreesWith(e, Probed(p))
  {
    var d, now := AcceptedIsProducible(e.reason.condition, e.shown.value);
    var before := if e.reason.condition.Restarted? then Some(e.restarts.value - 1) else None;
    var start := if d.startedAt < 4102444800.0 then d.startedAt else 4102444800.0;
    p := PollOf(e, before, false, Parsed(d), Some(d.pid), Some(start), now);
    StartIsKnown(d);
    hide Valid, AssessValid, Tenths, RoundTenth, AcceptsBound;
    RealizedStatus(d, now);
  }

  lemma StartIsKnown(d: Document)
    requires Valid(d)
    ensures 1 <= d.pid && 946684800.0 <= d.startedAt <= 4102444800.0
  {
  }

  lemma RealizedStatus(d: Document, now: real)
    requires Valid(d) && d.checkedAt <= now + MAX_FUTURE_SKEW
    ensures AssessValid(d, now).status.Ok? <==> OkCondition(AssessValid(d, now).condition)
    ensures BoundCondition(AssessValid(d, now).condition) && !AssessValid(d, now).condition.Restarted?
    ensures !AssessValid(d, now).status.Unknown?
  {
    VerdictTable(d, now);
    VerdictIsAssessed(d, now);
    ConditionTable(d, now);
    hide AssessValid, Valid;
  }

  /** The reader, written apart from Monitoring, trusts exactly the entries Monitoring can write: an entry showing whole
      tenths is trusted if and only if some poll writes it, or writes one it may hold back as this one. */
  lemma TrustedExactly(e: Entry)
    requires ShowsTenths(e)
    ensures WorkerEvidence(e).Some? <==> exists p :: AgreesWith(e, Probed(p))
  {
    hide AgreesWith;
    if WorkerEvidence(e).Some? {
      var p;
      if e.reason.Bound? {
        p := BoundIsProducible(e);
      } else {
        p := UnboundIsProducible(e);
      }
      assert AgreesWith(e, Probed(p));
    }
    if exists p :: AgreesWith(e, Probed(p)) {
      var p :| AgreesWith(e, Probed(p));
      AgreementIsEnough(e, Probed(p));
      Agreed(e, Probed(p));
      ProducerIsAccepted(p.unit, p.autoRestart, p.restarts, p.before, p.airing, p.crashed, p.reading, p.pid, p.processStart,
                         p.now, e.status);
    }
  }

  lemma Agreed(e: Entry, w: Entry)
    requires AgreesWith(e, w)
    ensures Debounced(w.status, e.status) && e.reason == w.reason
  {
  }

  lemma FreshIsAlive(d: Document, now: real)
    requires Valid(d)
    ensures var v := AssessValid(d, now);
            && (FreshCondition(v.condition) <==> Alive(d, now)) && (!Dead(d, now) ==> Alive(d, now))
            && (v.condition.Stale? <==> !d.phase.Stopped? && !ThreeStarts(d, now) && !d.phase.Rendering? && !Alive(d, now))
  {
    hide AssessValid, ThreeStarts;
    ConditionTable(d, now);
    VerdictTable(d, now);
  }

  /** What is believed of an entry a poll wrote: the process is verified when its own document was read, and not the one
      running when another's was; and the heartbeat is missing, foreign, broken, stale or current as it was found. */
  lemma BelievedIsFound(p: Poll, e: Entry)
    requires AgreesWith(e, Probed(p)) && p.unit.Active? && !p.crashed && !e.status.Unknown?
    ensures WorkerEvidence(e).Some?
    ensures var b := WorkerEvidence(e).value;
            var absent := p.reading.Missing? || p.reading.Unreadable?;
            var known := Identified(p.pid, p.processStart);
            var broken := !absent && !Readable(p.reading, p.now);
            var own := !broken && !absent && known && Wrote(p.reading.document, p.pid, p.processStart);
            && b.status == e.status && b.reason == e.reason
            && (b.identity.Verified? <==> own) && (b.identity.Mismatch? <==> !broken && !absent && known && !own)
            && (b.beat.MissingBeat? <==> absent) && (b.beat.NotCurrentBeat? <==> b.identity.Mismatch?)
            && (b.beat.MalformedBeat? <==> broken)
            && (b.beat.CurrentBeat? <==> own && Alive(p.reading.document, p.now))
            && (b.beat.StaleBeat? <==> own && !p.reading.document.phase.Stopped? && !ThreeStarts(p.reading.document, p.now) &&
                                       !p.reading.document.phase.Rendering? && !Alive(p.reading.document, p.now))
  {
    hide Probe, Observe, Valid, AcceptsBound, AssessValid, Alive, ThreeStarts, RoundTenth, AgreesWith, Dead,
         LastPassTroubled, Unverified;
    AgreementIsEnough(e, Probed(p));
    Agreed(e, Probed(p));
    ProducerIsAccepted(p.unit, p.autoRestart, p.restarts, p.before, p.airing, p.crashed, p.reading, p.pid, p.processStart,
                       p.now, e.status);
    ProbeDoes(p);
    ObserveDoes(p.reading, p.pid, p.processStart, p.now);
    if Readable(p.reading, p.now) {
      FreshIsAlive(p.reading.document, p.now);
    }
  }
}
