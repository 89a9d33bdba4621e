/** The heartbeat's writer (active_messages/heartbeat.py, Recorder) and the loop that drives it
    (active_messages/worker.py, run_forever): it never publishes a document its readers reject, and it
    never spins. */
module Recorder {
  import opened Common
  import opened Heartbeat

  const POLL_SECONDS := 5.0
  const PAUSE_SLICE := 0.5
  const MAX_PROGRESS_PASSES := 10

  /** The heartbeat path: what a reader finds there now. */
  class StateFile {
    var content: Reading

    constructor (content: Reading)
      ensures this.content == content
    {
      this.content := content;
    }
  }

  /** `_code`. */
  function Sanitized(code: string): (r: string)
    ensures CodeOk(r) && (CodeOk(code) ==> r == code) && (|code| > 64 && CodeOk(code[..64]) ==> r == code[..64])
  {
    var text := if |code| > 64 then code[..64] else code;
    if CodeOk(text) then text else "unrecognized"
  }

  function Max(a: real, b: real): real {
    if a >= b then a else b
  }

  function Min(a: real, b: real): real {
    if a <= b then a else b
  }

  function Bounded(n: int): int {
    if n <= MAX_COUNTER then n else MAX_COUNTER
  }

  /** What the recorder's own state always satisfies; a document is valid exactly when, besides, a render's deadline is
      a representable time and no execution is left over from a render before the first pass ended. */
  predicate Sound(d: Document) {
    && 1 <= d.pid <= MAX_PID
    && Timestamp(d.startedAt) && Timestamp(d.checkedAt) && d.startedAt <= d.checkedAt
    && StartsOk(d.recentStarts, d.startedAt)
    && (!d.previous.UncleanEnd? ==> |d.recentStarts| == 1)
    && 0 <= d.cycle <= MAX_COUNTER && CodeOk(d.code) && CountersOk(d)
    && (d.lastProgressAt.Some? ==> d.cycle != 0 && d.startedAt <= d.lastProgressAt.value <= d.checkedAt)
    && (match d.phase
        case Starting => d.cycle == 0 && d.checkedAt == d.startedAt && d.execution.None? && d.renderDeadline.None?
        case Polling => d.cycle != 0 && d.renderDeadline.None?
        case Rendering => d.execution.Some? && d.renderDeadline.Some? &&
                          d.checkedAt < d.renderDeadline.value <= d.checkedAt + RENDER_DEADLINE_MAX
        case Stopped => d.renderDeadline.None?)
  }

  lemma SoundIsValid(d: Document)
    requires Sound(d)
    ensures Valid(d) <==> && (d.phase.Rendering? ==> d.renderDeadline.value <= MAX_TIMESTAMP)
                          && (d.cycle == 0 && d.execution.Some? ==> d.phase.Rendering?)
  {
  }

  lemma HistoryShape(reading: Reading, now: real)
    requires Timestamp(now)
    ensures var (previous, starts) := History(reading, now);
            StartsOk(starts, now) && (!previous.UncleanEnd? ==> |starts| == 1)
  {
    if reading.Parsed? && Valid(reading.document) && !reading.document.phase.Stopped? {
      var prior := reading.document.recentStarts;
      assert Ascending(prior) && forall i :: 0 <= i < |prior| ==> Timestamp(prior[i]);
      hide Valid;
      WindowedShape(prior, now);
      NextStartsOk(KeptStarts(prior, now), now);
    }
  }

  /** What a new process says of the one before, and of itself: no document, a stop in order, an end without one, or a
      document it could not read; only after an end without a stop are earlier starts still counted. */
  lemma HistoryTells(reading: Reading, now: real)
    ensures var (previous, starts) := History(reading, now);
            var read := reading.Parsed? && Valid(reading.document);
            && (previous.NoHistory? <==> reading.Missing?)
            && (previous.CleanEnd? <==> read && reading.document.phase.Stopped?)
            && (previous.UncleanEnd? <==> read && !reading.document.phase.Stopped?)
            && (previous.MalformedEnd? <==> !reading.Missing? && !read)
            && starts != [] && starts[|starts| - 1] == now
            && forall i :: 0 <= i < |starts| - 1 ==>
                 previous.UncleanEnd? && InWindow(starts[i], now) && starts[i] in reading.document.recentStarts
  {
    hide Valid;
    if reading.Parsed? && Valid(reading.document) && !reading.document.phase.Stopped? {
      KeptAreCounted(reading.document.recentStarts, now);
    }
  }

  lemma {:induction false} KeptAreCounted(starts: seq<real>, now: real)
    ensures forall s :: s in KeptStarts(starts, now) ==> s in starts && InWindow(s, now)
  {
    if starts != [] {
      KeptAreCounted(starts[..|starts| - 1], now);
    }
  }

  lemma NextStartsOk(kept: seq<real>, now: real)
    requires Timestamp(now) && Ascending(kept) && AllBefore(kept, now)
    requires forall i :: 0 <= i < |kept| ==> Timestamp(kept[i]) && kept[i] >= now - CRASH_WINDOW
    ensures StartsOk(LastStarts(kept + [now]), now)
  {
  }

  /** Only starts at or before now survive, so the record is in order even after the clock went back. */
  lemma {:induction false} WindowedShape(starts: seq<real>, now: real)
    requires Ascending(starts) && (forall i :: 0 <= i < |starts| ==> Timestamp(starts[i])) && Timestamp(now)
    ensures var k := KeptStarts(starts, now);
            && Ascending(k) && AllBefore(k, now)
            && (forall i :: 0 <= i < |k| ==> Timestamp(k[i]) && k[i] >= now - CRASH_WINDOW)
            && (forall b :: AllBefore(starts, b) ==> AllBefore(k, b))
  {
    if starts != [] {
      var rest, last := starts[..|starts| - 1], starts[|starts| - 1];
      WindowedShape(rest, now);
      assert AllBefore(rest, last);
      forall b | AllBefore(starts, b) ensures AllBefore(KeptStarts(starts, now), b) {
        assert AllBefore(rest, b);
      }
    }
  }

  /** What one process never changes of its document: who wrote it, since when, and the history it read at its start. */
  predicate SameProcess(a: Document, b: Document) {
    a.pid == b.pid && a.startedAt == b.startedAt && a.recentStarts == b.recentStarts && a.previous == b.previous
  }

  /** How often the last result was repeated, itself included. */
  function Streak(outcomes: seq<PassResult>): nat {
    var n := |outcomes|;
    if n == 0 then 0
    else if n >= 2 && outcomes[n - 2] == outcomes[n - 1] then 1 + Streak(outcomes[..n - 1])
    else 1
  }

  /** So many of the last passes ended alike. */
  predicate EndsWith(outcomes: seq<PassResult>, n: nat, result: PassResult) {
    n <= |outcomes| && forall i :: |outcomes| - n <= i < |outcomes| ==> outcomes[i] == result
  }

  lemma {:induction false} StreakTells(outcomes: seq<PassResult>, n: nat)
    requires outcomes != [] && n >= 1
    ensures Streak(outcomes) >= n <==> EndsWith(outcomes, n, outcomes[|outcomes| - 1])
  {
    var rest, last := outcomes[..|outcomes| - 1], outcomes[|outcomes| - 1];
    if n >= 2 && |outcomes| >= 2 {
      StreakTells(rest, n - 1);
      assert rest[|rest| - 1] == outcomes[|outcomes| - 2];
      if EndsWith(outcomes, n, last) {
        assert EndsWith(rest, n - 1, last);
      }
      if outcomes[|outcomes| - 2] == last && EndsWith(rest, n - 1, last) {
        forall i | |outcomes| - n <= i < |outcomes| ensures outcomes[i] == last {
          assert i < |outcomes| - 1 ==> outcomes[i] == rest[i];
        }
      }
    }
  }

  /** The document says of the passes what they were: how many ended, how the last one did and how often in a row, how many
      of those failed, and whether any made progress. The counters stop at their bound. */
  predicate Counts(d: Document, outcomes: seq<PassResult>) {
    && d.cycle == Bounded(|outcomes|) && d.repeats == Bounded(Streak(outcomes))
    && d.result == (if outcomes == [] then None else Some(outcomes[|outcomes| - 1]))
    && d.errors == (if outcomes != [] && outcomes[|outcomes| - 1].Errored? then Bounded(Streak(outcomes)) else 0)
    && (d.lastProgressAt.Some? <==> exists i :: 0 <= i < |outcomes| && Progress(outcomes[i]))
  }

  lemma CountsNext(d: Document, n: Document, outcomes: seq<PassResult>, read: PassResult)
    requires Counts(d, outcomes)
    requires n.cycle == Bounded(d.cycle + 1) && n.result == Some(read)
    requires n.repeats == Bounded(if Some(read) == d.result then d.repeats + 1 else 1)
    requires n.errors == if read.Errored? then n.repeats else 0
    requires n.lastProgressAt.Some? <==> Progress(read) || d.lastProgressAt.Some?
    ensures Counts(n, outcomes + [read])
  {
    var more := outcomes + [read];
    assert more[..|outcomes|] == outcomes;
    assert Streak(more) == if Some(read) == d.result then 1 + Streak(outcomes) else 1;
    if d.lastProgressAt.Some? {
      var i :| 0 <= i < |outcomes| && Progress(outcomes[i]);
      assert Progress(more[i]);
    }
    if Progress(read) {
      assert Progress(more[|outcomes|]);
    }
  }

  class Recorder {
    const file: StateFile
    var state: Document
    /** How every pass ended that was recorded. */
    ghost var outcomes: seq<PassResult>
    /** How many saves validation has refused. */
    ghost var refused: nat

    /** `__init__`: the start of a process, its history read from the document its predecessor left. */
    constructor (file: StateFile, clock: real, pid: int, writable: bool)
      requires Timestamp(clock) && 1 <= pid <= MAX_PID
      modifies file
      ensures this.file == file && Sound(state) && Valid(state) && refused == 0
      ensures outcomes == [] && Counts(state, outcomes)
      ensures state.startedAt == clock == state.checkedAt && state.pid == pid
      ensures state.phase.Starting? && state.execution.None?
      ensures (state.previous, state.recentStarts) == History(old(file.content), clock)
      ensures file.content == if writable then Parsed(state) else old(file.content)
    {
      var (previous, starts) := History(file.content, clock);
      HistoryShape(file.content, clock);
      this.file := file;
      state := Document(pid, clock, clock, starts, previous, Starting, 0, None, "", None, 0, 0, None, None);
      refused, outcomes := 0, [];
      new;
      SoundIsValid(state);
      if writable { file.content := Parsed(state); }
    }

    /** `_save`: only a document readers accept is published; the write itself is best effort. */
    method Save(writable: bool)
      modifies this`refused, file
      ensures refused == old(refused) + if Valid(state) then 0 else 1
      ensures file.content == if Valid(state) && writable then Parsed(state) else old(file.content)
    {
      if !Valid(state) {
        refused := refused + 1;
      } else if writable {
        file.content := Parsed(state);
      }
    }

    /** `cycle`: after every pass. `result` None is an outcome the contract does not know. */
    method Cycle(result: Option<PassResult>, code: string, execution: Option<nat>, clock: real, writable: bool)
      requires Sound(state) && Counts(state, outcomes) && clock <= MAX_TIMESTAMP
      modifies this, file
      ensures Sound(state) && Valid(state) && refused == old(refused) && SameProcess(state, old(state))
      ensures outcomes == old(outcomes) + [result.GetOr(Errored)] && Counts(state, outcomes)
      ensures Progress(result.GetOr(Errored)) ==> state.lastProgressAt == Some(state.checkedAt)
      ensures state.execution == execution && state.code == Sanitized(code)
      ensures state.phase.Polling? && state.checkedAt == Max(clock, old(state).checkedAt)
      ensures state.cycle == Bounded(old(state).cycle + 1) >= 1 && state.result == Some(result.GetOr(Errored))
      ensures file.content == if writable then Parsed(state) else old(file.content)
    {
      var now := Max(clock, state.checkedAt);
      var read := result.GetOr(Errored);
      var repeats := if Some(read) == state.result then state.repeats + 1 else 1;
      ghost var before := state;
      state := state.(phase := Polling, checkedAt := now, cycle := Bounded(state.cycle + 1), result := Some(read),
                      code := Sanitized(code), execution := execution, repeats := Bounded(repeats),
                      errors := if read.Errored? then Bounded(repeats) else 0, renderDeadline := None,
                      lastProgressAt := if Progress(read) then Some(now) else state.lastProgressAt);
      CountsNext(before, state, outcomes, read);
      outcomes := outcomes + [read];
      SoundIsValid(state);
      Save(writable);
    }

    /** `rendering`: just before a render. It is published exactly when its deadline is a representable time. */
    method Rendering(execution: nat, timeout: real, clock: real, writable: bool)
      requires Sound(state) && Counts(state, outcomes) && clock <= MAX_TIMESTAMP
      modifies this, file
      ensures outcomes == old(outcomes) && Counts(state, outcomes)
      ensures Sound(state) && state.phase.Rendering? && state.checkedAt == Max(clock, old(state).checkedAt)
      ensures SameProcess(state, old(state)) && state.cycle == old(state).cycle && state.execution == Some(execution)
      ensures Valid(state) <==> state.renderDeadline.value <= MAX_TIMESTAMP
      ensures state.renderDeadline.value == state.checkedAt + Min(Max(timeout, 0.0), RENDER_TIMEOUT_MAX) + RENDER_GRACE
      ensures refused == old(refused) + if Valid(state) then 0 else 1
      ensures file.content == if Valid(state) && writable then Parsed(state) else old(file.content)
    {
      var now := Max(clock, state.checkedAt);
      var bound := Min(Max(timeout, 0.0), RENDER_TIMEOUT_MAX);
      state := state.(phase := Phase.Rendering, checkedAt := now, execution := Some(execution),
                      renderDeadline := Some(now + bound + RENDER_GRACE));
      SoundIsValid(state);
      Save(writable);
    }

    /** `stopped`: a clean stop. Readers accept it exactly when a pass has completed or none was rendering; the loop never
        stops before the pass that was rendering has ended. */
    method RecordStop(clock: real, writable: bool)
      requires Sound(state) && Counts(state, outcomes) && clock <= MAX_TIMESTAMP
      modifies this, file
      ensures outcomes == old(outcomes) && Counts(state, outcomes)
      ensures state.checkedAt == Max(clock, old(state).checkedAt)
      ensures Sound(state) && state.phase.Stopped? && SameProcess(state, old(state))
      ensures Valid(state) <==> old(state).cycle != 0 || old(state).execution.None?
      ensures refused == old(refused) + if Valid(state) then 0 else 1
      ensures file.content == if Valid(state) && writable then Parsed(state) else old(file.content)
    {
      state := state.(phase := Phase.Stopped, checkedAt := Max(clock, state.checkedAt), renderDeadline := None);
      SoundIsValid(state);
      Save(writable);
    }
  }

  // -- the loop -----------------------------------------------------------------------------------------------------

  datatype Render = Render(execution: nat, timeout: real, clock: real, writable: bool)
  /** One turn of the loop as its environment decides it: whether `stop()` is set, the renders of the pass, how it ends
      (a database failure is an "error" outcome; any other exception ends the process), and when `stop()` is seen
      during the wait. */
  datatype Pass = Pass(stop: bool, renders: seq<Render>, dies: bool, result: Option<PassResult>, code: string,
                       execution: Option<nat>, clock: real, writable: bool, stops: seq<bool>)

  /** What the loop did: passes, and the waits between them. */
  datatype LoopStep = Ran(progress: bool) | Waited

  predicate WaitsAfter(result: Option<PassResult>) {
    result.None? || !Progress(result.value)
  }

  /** How many passes the log ends with since its last wait. */
  function Trailing(log: seq<LoopStep>): nat {
    if log == [] || log[|log| - 1].Waited? then 0 else 1 + Trailing(log[..|log| - 1])
  }

  /** Every pass without progress is followed by a wait, and never more than MAX_PROGRESS_PASSES run without one. */
  ghost predicate Cadenced(log: seq<LoopStep>) {
    && (forall i :: 0 <= i < |log| && log[i] == Ran(false) ==> i + 1 < |log| && log[i + 1].Waited?)
    && (forall k :: 0 <= k <= |log| ==> Trailing(log[..k]) <= MAX_PROGRESS_PASSES)
  }

  lemma CadencedAppend(log: seq<LoopStep>, e: LoopStep)
    requires Cadenced(log) && e != Ran(false)
    requires e.Ran? ==> Trailing(log) < MAX_PROGRESS_PASSES
    ensures Cadenced(log + [e])
  {
    var n := log + [e];
    assert n[..|log|] == log;
    forall k | 0 <= k <= |n| ensures Trailing(n[..k]) <= MAX_PROGRESS_PASSES {
      if k <= |log| {
        assert n[..k] == log[..k];
      } else {
        assert n[..k] == n;
      }
    }
  }

  lemma CadencedPause(log: seq<LoopStep>, progress: bool)
    requires Cadenced(log) && Trailing(log) < MAX_PROGRESS_PASSES
    ensures Cadenced(log + [Ran(progress), Waited])
  {
    var n := log + [Ran(progress), Waited];
    forall k | 0 <= k <= |n| ensures Trailing(n[..k]) <= MAX_PROGRESS_PASSES {
      if k <= |log| {
        assert n[..k] == log[..k];
      } else if k == |log| + 1 {
        assert n[..k] == log + [Ran(progress)];
        assert (log + [Ran(progress)])[..|log|] == log;
      } else {
        assert n[..k] == n;
      }
    }
  }

  lemma TrailingAppend(log: seq<LoopStep>, e: LoopStep)
    ensures Trailing(log + [e]) == if e.Waited? then 0 else 1 + Trailing(log)
  {
    assert (log + [e])[..|log|] == log;
  }

  /** The clocks a station shows: within the contract's range, with room for a render's deadline. */
  predicate InRange(p: Pass) {
    p.clock <= MAX_TIMESTAMP - RENDER_DEADLINE_MAX &&
    forall i :: 0 <= i < |p.renders| ==> p.renders[i].clock <= MAX_TIMESTAMP - RENDER_DEADLINE_MAX
  }

  /** `_pause`: `seconds` in slices of at most half a second, given up as soon as `stop()` is seen. */
  method Pause(seconds: real, stops: seq<bool>) returns (slept: real, polls: nat)
    ensures 0.0 <= slept && (seconds >= 0.0 ==> slept <= seconds)
    ensures (forall i :: 0 <= i < |stops| ==> !stops[i]) && seconds >= 0.0 ==> slept == seconds
    ensures polls < |stops| && stops[polls] ==> slept <= (polls as real) * PAUSE_SLICE
  {
    var remaining := seconds;
    slept, polls := 0.0, 0;
    while remaining > 0.0 && !(polls < |stops| && stops[polls])
      invariant slept >= 0.0 && (seconds >= 0.0 ==> remaining >= 0.0 && slept + remaining == seconds)
      invariant slept <= (polls as real) * PAUSE_SLICE
      decreases if remaining > 0.0 then (remaining * 2.0).Floor + 1 else 0
    {
      var step := Min(PAUSE_SLICE, remaining);
      slept := slept + step;
      remaining := remaining - step;
      polls := polls + 1;
    }
  }

  /** What the file shows is what it showed before, or a valid document of this process. */
  predicate FileOf(now: Reading, before: Reading, state: Document) {
    now == before || (now.Parsed? && Valid(now.document) && SameProcess(now.document, state))
  }

  /** No stop was published since. */
  predicate Unstopped(now: Reading, before: Reading) {
    now == before || (now.Parsed? && !now.document.phase.Stopped?)
  }

  /** How many passes the loop ran to their end. */
  function RanIn(log: seq<LoopStep>): nat {
    if log == [] then 0 else RanIn(log[..|log| - 1]) + if log[|log| - 1].Ran? then 1 else 0
  }

  lemma RanAppend(log: seq<LoopStep>, e: LoopStep)
    ensures RanIn(log + [e]) == RanIn(log) + if e.Ran? then 1 else 0
  {
    assert (log + [e])[..|log|] == log;
  }

  /** How the passes ended; an outcome the contract does not know is an error. */
  function Results(passes: seq<Pass>): seq<PassResult> {
    seq(|passes|, i requires 0 <= i < |passes| => passes[i].result.GetOr(Errored))
  }

  /** `run_forever`, up to the end of the script. */
  method RunForever(recorder: Recorder, passes: seq<Pass>, stopClock: real, writable: bool)
    returns (log: seq<LoopStep>, clean: bool)
    requires Sound(recorder.state) && recorder.state.checkedAt <= MAX_TIMESTAMP - RENDER_DEADLINE_MAX
    requires Counts(recorder.state, recorder.outcomes)
    requires recorder.state.execution.None? || recorder.state.cycle != 0
    requires (forall i :: 0 <= i < |passes| ==> InRange(passes[i])) && stopClock <= MAX_TIMESTAMP
    modifies recorder, recorder.file
    ensures Sound(recorder.state) && recorder.refused == old(recorder.refused)
    ensures SameProcess(recorder.state, old(recorder.state))
    ensures FileOf(recorder.file.content, old(recorder.file.content), recorder.state)
    ensures !clean ==> Unstopped(recorder.file.content, old(recorder.file.content))
    ensures Cadenced(log) && RanIn(log) <= |passes|
    ensures Counts(recorder.state, recorder.outcomes)
    ensures recorder.outcomes == old(recorder.outcomes) + Results(passes[..RanIn(log)])
    ensures clean ==> recorder.state.phase.Stopped? && (writable ==> recorder.file.content == Parsed(recorder.state))
  {
    hide Sound, Counts, Valid, Cadenced, Trailing, RanIn;
    NothingRan();
    log, clean := [], false;
    var progressed := 0;
    var i := 0;
    while i < |passes| && !passes[i].stop
      invariant 0 <= i <= |passes|
      invariant Sound(recorder.state) && recorder.refused == old(recorder.refused)
      invariant recorder.state.checkedAt <= MAX_TIMESTAMP - RENDER_DEADLINE_MAX
      invariant recorder.state.execution.None? || recorder.state.cycle != 0
      invariant SameProcess(recorder.state, old(recorder.state))
      invariant FileOf(recorder.file.content, old(recorder.file.content), recorder.state)
      invariant Unstopped(recorder.file.content, old(recorder.file.content))
      invariant Cadenced(log) && progressed == Trailing(log) < MAX_PROGRESS_PASSES
      invariant Counts(recorder.state, recorder.outcomes) && RanIn(log) == i
      invariant recorder.outcomes == old(recorder.outcomes) + Results(passes[..i])
    {
      var p := passes[i];
      RunPass(recorder, p.renders);
      if p.dies { return; }
      recorder.Cycle(p.result, p.code, p.execution, p.clock, p.writable);
      log, progressed := Turn(log, progressed, !WaitsAfter(p.result), p.stops);
      assert passes[..i + 1] == passes[..i] + [p];
      i := i + 1;
    }
    recorder.RecordStop(stopClock, writable);
    clean := true;
  }

  lemma NothingRan()
    ensures Cadenced([]) && Trailing([]) == 0 && RanIn([]) == 0
  {
  }

  /** The end of a turn: straight on after progress, up to a bound, else after a wait. */
  method Turn(log: seq<LoopStep>, progressed: nat, progress: bool, stops: seq<bool>) returns (next: seq<LoopStep>, count: nat)
    requires Cadenced(log) && progressed == Trailing(log) < MAX_PROGRESS_PASSES
    ensures Cadenced(next) && count == Trailing(next) < MAX_PROGRESS_PASSES
    ensures next == log + [Ran(progress)] || next == log + [Ran(progress), Waited]
    ensures next == log + [Ran(progress)] <==> progress && progressed + 1 < MAX_PROGRESS_PASSES
    ensures RanIn(next) == RanIn(log) + 1
  {
    count := if progress then progressed + 1 else 0;
    if count != 0 && count < MAX_PROGRESS_PASSES {
      CadencedAppend(log, Ran(true));
      TrailingAppend(log, Ran(true));
      RanAppend(log, Ran(true));
      next := log + [Ran(true)];
    } else {
      CadencedPause(log, progress);
      TrailingAppend(log + [Ran(progress)], Waited);
      RanAppend(log, Ran(progress));
      RanAppend(log + [Ran(progress)], Waited);
      assert log + [Ran(progress)] + [Waited] == log + [Ran(progress), Waited];
      count := 0;
      var _, _ := Pause(POLL_SECONDS, stops);
      next := log + [Ran(progress), Waited];
    }
  }

  /** The renders of one pass, each recorded before it starts. */
  method RunPass(recorder: Recorder, renders: seq<Render>)
    requires Sound(recorder.state) && recorder.state.checkedAt <= MAX_TIMESTAMP - RENDER_DEADLINE_MAX
    requires Counts(recorder.state, recorder.outcomes)
    requires forall i :: 0 <= i < |renders| ==> renders[i].clock <= MAX_TIMESTAMP - RENDER_DEADLINE_MAX
    modifies recorder, recorder.file
    ensures Sound(recorder.state) && recorder.state.checkedAt <= MAX_TIMESTAMP - RENDER_DEADLINE_MAX
    ensures recorder.refused == old(recorder.refused) && SameProcess(recorder.state, old(recorder.state))
    ensures recorder.outcomes == old(recorder.outcomes) && Counts(recorder.state, recorder.outcomes)
    ensures FileOf(recorder.file.content, old(recorder.file.content), recorder.state)
    ensures Unstopped(recorder.file.content, old(recorder.file.content))
  {
    for i := 0 to |renders|
      invariant Sound(recorder.state) && recorder.state.checkedAt <= MAX_TIMESTAMP - RENDER_DEADLINE_MAX
      invariant recorder.refused == old(recorder.refused) && SameProcess(recorder.state, old(recorder.state))
      invariant recorder.outcomes == old(recorder.outcomes) && Counts(recorder.state, recorder.outcomes)
      invariant FileOf(recorder.file.content, old(recorder.file.content), recorder.state)
      invariant Unstopped(recorder.file.content, old(recorder.file.content))
    {
      var r := renders[i];
      recorder.Rendering(r.execution, r.timeout, r.clock, r.writable);
    }
  }

  /** A recorder's document carries exactly the record of its chain of processes. */
  lemma DocumentCarriesHistory(prior: Document, lives: seq<Life>, now: real)
    requires lives != [] && Valid(prior) && prior.recentStarts == RecordedHistory(lives)
    ensures !prior.phase.Stopped? ==>
              History(Parsed(prior), now).1 == RecordedHistory(lives + [Life(now, EndedUnclean)])
    ensures prior.phase.Stopped? ==> History(Parsed(prior), now).1 == RecordedHistory(lives + [Life(now, EndedClean)])
    ensures History(Missing, now).1 == RecordedHistory(lives + [Life(now, LostDocument)])
    ensures History(Broken, now).1 == RecordedHistory(lives + [Life(now, BrokenDocument)])
  {
    hide Valid, KeptStarts, LastStarts;
    forall e ensures (lives + [Life(now, e)])[..|lives|] == lives {
    }
  }

  // -- a chain of processes -----------------------------------------------------------------------------------------

  /** How the next process finds the last one ended. */
  function EndOf(reading: Reading): End {
    match reading
    case Missing => LostDocument
    case Parsed(prior) =>
      if !Valid(prior) then BrokenDocument else if prior.phase.Stopped? then EndedClean else EndedUnclean
    case _ => BrokenDocument
  }

  /** The file shows a document of the last of these processes, with the record of all of them; or no document a
      process wrote. */
  ghost predicate Carries(reading: Reading, lives: seq<Life>) {
    (reading.Parsed? && Valid(reading.document)) ==>
      && lives != [] && reading.document.recentStarts == RecordedHistory(lives)
      && reading.document.startedAt == lives[|lives| - 1].startedAt
  }

  /** A new process that publishes a document carries its start on, on top of what the file carried. */
  lemma StartCarriesOn(found: Reading, published: Document, lives: seq<Life>)
    requires Carries(found, lives) && published.recentStarts == History(found, published.startedAt).1
    ensures Carries(Parsed(published), lives + [Life(published.startedAt, EndOf(found))])
  {
    hide Valid, KeptStarts, LastStarts;
    var n := lives + [Life(published.startedAt, EndOf(found))];
    assert n[..|lives|] == lives;
  }

  /** One process of the worker: what befell the file before (None: nothing), its start, its loop, and its end. */
  datatype Boot = Boot(befell: Option<Reading>, clock: real, pid: int, writable: bool, passes: seq<Pass>, stopClock: real,
                       stopWritable: bool)

  predicate BootOk(b: Boot) {
    && (b.befell.Some? ==> !b.befell.value.Parsed?)
    && Timestamp(b.clock) && b.clock <= MAX_TIMESTAMP - RENDER_DEADLINE_MAX && 1 <= b.pid <= MAX_PID
    && (forall i :: 0 <= i < |b.passes| ==> InRange(b.passes[i])) && b.stopClock <= MAX_TIMESTAMP
  }

  /** What one process found at the file, what it left there, whether it published a document, and whether it stopped in
      order. */
  datatype Passage = Passage(found: Reading, left: Reading, wrote: bool, clean: bool)

  /** One process on the file as the last one left it: it wrote nothing and the file is as it was found; or the file shows
      a valid document of this process, with the history it read, that says "stopped" only after a stop in order. */
  ghost predicate Passed(b: Boot, p: Passage, at: Reading) {
    && p.found == b.befell.GetOr(at) && (b.writable ==> p.wrote)
    && if p.wrote then
         && p.left.Parsed? && Valid(p.left.document) && p.left.document.startedAt == b.clock
         && p.left.document.recentStarts == History(p.found, b.clock).1
         && (if p.clean then b.stopWritable ==> p.left.document.phase.Stopped? else !p.left.document.phase.Stopped?)
       else p.left == p.found
  }

  function LeftBy(log: seq<Passage>, before: Reading): Reading {
    if log == [] then before else log[|log| - 1].left
  }

  ghost predicate Happened(boots: seq<Boot>, log: seq<Passage>, before: Reading) {
    |log| == |boots| && forall i :: 0 <= i < |boots| ==> Passed(boots[i], log[i], LeftBy(log[..i], before))
  }

  /** The processes that published a document, in order, each with how it found the one before to have ended. */
  function LivesOf(boots: seq<Boot>, log: seq<Passage>): seq<Life>
    requires |log| == |boots|
  {
    if boots == [] then []
    else
      var b, p := boots[|boots| - 1], log[|log| - 1];
      LivesOf(boots[..|boots| - 1], log[..|log| - 1]) + if p.wrote then [Life(b.clock, EndOf(p.found))] else []
  }

  /** Any number of processes, one after another, on one file. */
  method RunProcesses(file: StateFile, boots: seq<Boot>) returns (ghost log: seq<Passage>)
    requires forall i :: 0 <= i < |boots| ==> BootOk(boots[i])
    modifies file
    ensures Happened(boots, log, old(file.content)) && file.content == LeftBy(log, old(file.content))
  {
    hide Passed;
    log := [];
    for i := 0 to |boots|
      invariant |log| == i && file.content == LeftBy(log, old(file.content))
      invariant forall k :: 0 <= k < i ==> Passed(boots[k], log[k], LeftBy(log[..k], old(file.content)))
    {
      assert log[..i] == log;
      ghost var was := log;
      ghost var p := RunProcess(file, boots[i]);
      log := log + [p];
      assert log[..i] == was;
      assert forall k :: 0 <= k < i ==> log[..k] == was[..k];
    }
  }

  method RunProcess(file: StateFile, b: Boot) returns (ghost p: Passage)
    requires BootOk(b)
    modifies file
    ensures Passed(b, p, old(file.content)) && file.content == p.left
  {
    if b.befell.Some? {
      file.content := b.befell.value;
    }
    ghost var found := file.content;
    var recorder := new Recorder(file, b.clock, b.pid, b.writable);
    var _, clean := RunForever(recorder, b.passes, b.stopClock, b.stopWritable);
    p := Passage(found, file.content, b.writable || file.content != found, clean);
  }

  /** The clock never goes back from one start to the next. */
  predicate Onward(boots: seq<Boot>) {
    forall i, j :: 0 <= i < j < |boots| ==> boots[i].clock <= boots[j].clock
  }

  /** Whatever each process managed to write, and however it ended, the document left carries exactly the record of the
      processes that published one. */
  lemma {:induction false} ChainCarries(boots: seq<Boot>, log: seq<Passage>, before: Reading)
    requires !before.Parsed? && Happened(boots, log, before)
    requires forall i :: 0 <= i < |boots| ==> boots[i].befell.Some? ==> !boots[i].befell.value.Parsed?
    ensures var lives := LivesOf(boots, log);
            && Carries(LeftBy(log, before), lives)
            && (if lives == [] then EndOf(LeftBy(log, before)) != EndedUnclean else !lives[0].before.EndedUnclean?)
  {
    hide Valid, History, RecordedHistory, Passed, Carries, EndOf;
    if boots == [] {
      NothingCarries(before);
    } else {
      var k := |boots| - 1;
      assert forall i :: 0 <= i < k ==> log[..k][..i] == log[..i];
      ChainCarries(boots[..k], log[..k], before);
      var rest := LivesOf(boots[..k], log[..k]);
      NextLink(boots[k], log[k], LeftBy(log[..k], before), rest);
      assert rest + [] == rest;
    }
  }

  lemma {:induction false} ChainIsForward(boots: seq<Boot>, log: seq<Passage>)
    requires |log| == |boots| && Onward(boots)
    ensures var lives := LivesOf(boots, log);
            && Forward(lives)
            && (boots != [] ==> forall k :: 0 <= k < |lives| ==> lives[k].startedAt <= boots[|boots| - 1].clock)
  {
    hide EndOf;
    if boots != [] {
      var k := |boots| - 1;
      ChainIsForward(boots[..k], log[..k]);
      assert k > 0 ==> boots[k - 1].clock <= boots[k].clock;
    }
  }

  lemma NothingCarries(reading: Reading)
    requires !reading.Parsed?
    ensures Carries(reading, []) && EndOf(reading) != EndedUnclean
  {
  }

  lemma NextLink(b: Boot, p: Passage, at: Reading, lives: seq<Life>)
    requires Passed(b, p, at) && Carries(at, lives) && (b.befell.Some? ==> !b.befell.value.Parsed?)
    ensures p.wrote ==> Carries(p.left, lives + [Life(b.clock, EndOf(p.found))])
    ensures !p.wrote ==> Carries(p.left, lives) && (EndOf(p.left) == EndOf(at) || EndOf(p.left) != EndedUnclean)
    ensures EndOf(p.found) == EndOf(at) || EndOf(p.found) != EndedUnclean
  {
    hide Valid, History, RecordedHistory;
    if p.wrote {
      StartCarriesOn(p.found, p.left.document, lives);
    }
  }

  /** So the verdict at the file is the verdict on the complete history of unclean starts. */
  lemma VerdictAtTheFile(reading: Reading, lives: seq<Life>, now: real)
    requires Carries(reading, lives) && reading.Parsed? && Valid(reading.document)
    requires Forward(lives) && !lives[0].before.EndedUnclean? && now >= reading.document.startedAt
    ensures CountIn(reading.document.recentStarts, now) >= CRASH_LOOP_STARTS <==>
            CountIn(FullHistory(lives), now) >= CRASH_LOOP_STARTS
  {
    hide Valid;
    CrashVerdictIsLossless(lives, now);
  }

  /** Over any number of processes with a clock that does not go back, the crash-loop verdict of whoever reads the file is
      the verdict on the complete history: every start since the last that found a clean stop, no document or a broken
      one, among the processes that published a document. */
  lemma VerdictOverProcesses(boots: seq<Boot>, log: seq<Passage>, before: Reading, now: real)
    requires !before.Parsed? && Happened(boots, log, before) && Onward(boots)
    requires forall i :: 0 <= i < |boots| ==> boots[i].befell.Some? ==> !boots[i].befell.value.Parsed?
    requires var left := LeftBy(log, before);
             left.Parsed? && Valid(left.document) && now >= left.document.startedAt
    ensures CountIn(LeftBy(log, before).document.recentStarts, now) >= CRASH_LOOP_STARTS <==>
            CountIn(FullHistory(LivesOf(boots, log)), now) >= CRASH_LOOP_STARTS
  {
    ChainCarries(boots, log, before);
    ChainIsForward(boots, log);
    hide Valid, Passed, LivesOf;
    VerdictAtTheFile(LeftBy(log, before), LivesOf(boots, log), now);
  }

  // -- a stop the loop never makes ----------------------------------------------------------------------------------

  /** Called outside the loop, a stop while the first pass renders is refused by validation: the file goes on showing the
      render. */
  method StopWhileFirstRendering(file: StateFile, clock: real) returns (recorder: Recorder)
    requires Timestamp(clock) && clock <= MAX_TIMESTAMP - RENDER_DEADLINE_MAX
    modifies file
    ensures recorder.state.phase.Stopped? && !Valid(recorder.state) && recorder.refused == 1
    ensures file.content.Parsed? && file.content.document.phase.Rendering?
  {
    recorder := new Recorder(file, clock, 1, true);
    recorder.Rendering(7, 60.0, clock, true);
    recorder.RecordStop(clock, true);
  }
}
