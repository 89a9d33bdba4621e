/** The worker's heartbeat contract (active_messages/heartbeat.py): what a document must satisfy to be read
    at all, the verdict on it at an instant, and the recorder that writes it. Time is real-valued. */
module Heartbeat {
  import opened Common

  const MIN_TIMESTAMP := 946684800.0
  const MAX_TIMESTAMP := 4102444800.0
  const MAX_FUTURE_SKEW := 30.0
  const MAX_COUNTER: int := 1000000000000
  const MAX_PID: int := 0x7fff_ffff
  const MAX_STARTS := 8
  const STALE_AFTER := 60.0
  const RENDER_GRACE := 120.0
  const RENDER_TIMEOUT_MAX := 3630.0
  const RENDER_DEADLINE_MAX := 3750.0
  const CRASH_WINDOW := 900.0
  const CRASH_LOOP_STARTS := 3
  const BUSY_WARNING_REPEATS := 12
  const ERROR_CRITICAL_REPEATS := 3

  datatype Phase = Starting | Polling | Rendering | Stopped
  datatype Previous = NoHistory | CleanEnd | UncleanEnd | MalformedEnd
  datatype PassResult = Busy | Idle | Blocked | Backoff | Retry | Playing | Errored
                      | MadeReady | Reused | FailedPass | Superseded

  /** A document with the right keys and types. `result` is None for "" and `execution` for "". */
  datatype Document = Document(pid: int, startedAt: real, checkedAt: real, recentStarts: seq<real>, previous: Previous,
                               phase: Phase, cycle: int, result: Option<PassResult>, code: string,
                               execution: Option<nat>, repeats: int, errors: int, lastProgressAt: Option<real>,
                               renderDeadline: Option<real>)

  predicate Progress(result: PassResult) {
    result.MadeReady? || result.Reused? || result.FailedPass? || result.Superseded?
  }

  // -- the decoder --------------------------------------------------------------------------------------------

  predicate Timestamp(t: real) {
    MIN_TIMESTAMP <= t <= MAX_TIMESTAMP
  }

  predicate CodeChar(c: char) {
    'A' <= c <= 'Z' || 'a' <= c <= 'z' || '0' <= c <= '9' || c == '_'
  }

  predicate CodeOk(code: string) {
    |code| <= 64 && forall i :: 0 <= i < |code| ==> CodeChar(code[i])
  }

  predicate StartsOk(starts: seq<real>, startedAt: real) {
    && 1 <= |starts| <= MAX_STARTS
    && (forall i :: 0 <= i < |starts| ==> Timestamp(starts[i]))
    && (forall i, j :: 0 <= i < j < |starts| ==> starts[i] <= starts[j])
    && starts[|starts| - 1] == startedAt && starts[0] >= startedAt - CRASH_WINDOW
  }

  predicate CountersOk(d: Document) {
    if d.cycle == 0 then d.result.None? && d.code == "" && d.repeats == 0 && d.errors == 0
    else d.result.Some? && 1 <= d.repeats <= d.cycle && d.errors == (if d.result.value.Errored? then d.repeats else 0)
  }

  predicate DeadlineOk(d: Document) {
    if d.phase.Rendering? then
      && d.renderDeadline.Some? && Timestamp(d.renderDeadline.value) && d.execution.Some?
      && d.checkedAt < d.renderDeadline.value <= d.checkedAt + RENDER_DEADLINE_MAX
    else d.renderDeadline.None?
  }

  /** `validate` accepts the document. */
  predicate Valid(d: Document) {
    && 1 <= d.pid <= MAX_PID
    && Timestamp(d.startedAt) && Timestamp(d.checkedAt) && d.startedAt <= d.checkedAt
    && StartsOk(d.recentStarts, d.startedAt)
    && 0 <= d.cycle <= MAX_COUNTER && 0 <= d.repeats <= MAX_COUNTER && 0 <= d.errors <= MAX_COUNTER
    && CodeOk(d.code) && CountersOk(d)
    && (d.phase.Starting? ==> d.cycle == 0)
    && (d.lastProgressAt.Some? ==> Timestamp(d.lastProgressAt.value) &&
                                   d.startedAt <= d.lastProgressAt.value <= d.checkedAt)
    && DeadlineOk(d)
    && (!d.previous.UncleanEnd? ==> |d.recentStarts| == 1)
    && (d.phase.Polling? ==> d.cycle != 0)
    && (d.phase.Starting? ==> d.checkedAt == d.startedAt)
    && (d.cycle == 0 ==> d.lastProgressAt.None? && (d.execution.Some? ==> d.phase.Rendering?))
  }

  /** What `read_state` found. */
  datatype Reading = Missing | Unreadable | Broken | Parsed(document: Document)

  // -- the verdict -----------------------------------------------------------------------------------------------

  datatype Status = Ok | Warning | Critical | Unknown
  datatype Condition = NoHeartbeat | MalformedHeartbeat | StoppedCleanly | CrashLooping | RenderOverdue | InRender
                     | Stale | Malfunction | DatabaseErrors | BlockedComposition | LockHeldElsewhere | BusyPass
                     | RetryBackoff | PlayoutInFlight | Working | ReadyWaitingForGate | IdlePass
                     | HistoryUnverified | Restarted
  datatype Verdict = Verdict(status: Status, condition: Condition)

  predicate InWindow(start: real, now: real) {
    0.0 <= now - start <= CRASH_WINDOW
  }

  function CountIn(starts: seq<real>, now: real): nat {
    if starts == [] then 0
    else CountIn(starts[..|starts| - 1], now) + if InWindow(starts[|starts| - 1], now) then 1 else 0
  }

  /** `assess`'s reading of the last pass on a fresh, non-rendering heartbeat. */
  function ReadOutcome(d: Document): Verdict {
    if d.errors >= ERROR_CRITICAL_REPEATS then Verdict(Critical, Malfunction)
    else if d.errors != 0 then Verdict(Warning, DatabaseErrors)
    else match d.result
      case None => Verdict(Ok, IdlePass)
      case Some(Blocked) => Verdict(Warning, BlockedComposition)
      case Some(Busy) =>
        if d.repeats >= BUSY_WARNING_REPEATS then Verdict(Warning, LockHeldElsewhere) else Verdict(Ok, BusyPass)
      case Some(Backoff) => Verdict(Ok, RetryBackoff)
      case Some(Retry) => Verdict(Ok, RetryBackoff)
      case Some(Playing) => Verdict(Ok, PlayoutInFlight)
      case Some(Idle) => if d.code == "gated" then Verdict(Ok, ReadyWaitingForGate) else Verdict(Ok, IdlePass)
      case Some(Errored) => Verdict(Ok, IdlePass)
      case Some(_) => Verdict(Ok, Working)
  }

  /** `assess` for a valid document. */
  function AssessValid(d: Document, now: real): Verdict {
    if d.phase.Stopped? then Verdict(Critical, StoppedCleanly)
    else if CountIn(d.recentStarts, now) >= CRASH_LOOP_STARTS then Verdict(Critical, CrashLooping)
    else if d.phase.Rendering? && d.renderDeadline.Some? && now > d.renderDeadline.value then
      Verdict(Critical, RenderOverdue)
    else if !d.phase.Rendering? && now - d.checkedAt > STALE_AFTER then Verdict(Critical, Stale)
    else
      var found := if d.phase.Rendering? then Verdict(Ok, InRender) else ReadOutcome(d);
      if found.status.Ok? && d.previous.MalformedEnd? && InWindow(d.startedAt, now) then
        Verdict(Warning, HistoryUnverified)
      else found
  }

  /** `assess`: a document that breaks any rule, or is dated too far ahead, is malformed; none is ever "ok". */
  function Assess(reading: Reading, now: real): Verdict {
    match reading
    case Missing => Verdict(Unknown, NoHeartbeat)
    case Unreadable => Verdict(Unknown, NoHeartbeat)
    case Broken => Verdict(Critical, MalformedHeartbeat)
    case Parsed(d) =>
      if !Valid(d) || d.checkedAt > now + MAX_FUTURE_SKEW then Verdict(Critical, MalformedHeartbeat)
      else AssessValid(d, now)
  }

  // -- crash history -----------------------------------------------------------------------------------------------

  function KeptStarts(starts: seq<real>, now: real): seq<real> {
    if starts == [] then []
    else KeptStarts(starts[..|starts| - 1], now) +
         if InWindow(starts[|starts| - 1], now) then [starts[|starts| - 1]] else []
  }

  function LastStarts(starts: seq<real>): seq<real> {
    if |starts| > MAX_STARTS then starts[|starts| - MAX_STARTS..] else starts
  }

  /** What a new process records of the previous one: how it ended, and the starts still counted. */
  function History(reading: Reading, now: real): (Previous, seq<real>) {
    match reading
    case Missing => (NoHistory, [now])
    case Parsed(prior) =>
      if !Valid(prior) then (MalformedEnd, [now])
      else if prior.phase.Stopped? then (CleanEnd, [now])
      else (UncleanEnd, LastStarts(KeptStarts(prior.recentStarts, now) + [now]))
    case _ => (MalformedEnd, [now])
  }

  /** The starts a chain of unclean restarts records, each process reading its predecessor's document. */
  function Recorded(starts: seq<real>): seq<real> {
    if |starts| <= 1 then starts
    else LastStarts(KeptStarts(Recorded(starts[..|starts| - 1]), starts[|starts| - 1]) + [starts[|starts| - 1]])
  }

  predicate Ascending(starts: seq<real>) {
    forall i, j :: 0 <= i < j < |starts| ==> starts[i] <= starts[j]
  }

  lemma CountAppend(starts: seq<real>, s: real, now: real)
    ensures CountIn(starts + [s], now) == CountIn(starts, now) + if InWindow(s, now) then 1 else 0
  {
    assert (starts + [s])[..|starts|] == starts;
  }

  lemma {:induction false} CountTail(s: real, starts: seq<real>, now: real)
    ensures CountIn([s] + starts, now) == CountIn(starts, now) + if InWindow(s, now) then 1 else 0
  {
    if starts == [] {
      assert [s] + starts == [s];
      CountAppend([], s, now);
      assert [] + [s] == [s];
    } else {
      var rest, last := starts[..|starts| - 1], starts[|starts| - 1];
      CountTail(s, rest, now);
      assert starts == rest + [last] && [s] + starts == ([s] + rest) + [last];
      CountAppend([s] + rest, last, now);
    }
  }

  lemma {:induction false} CountAll(starts: seq<real>, now: real)
    requires forall i :: 0 <= i < |starts| ==> InWindow(starts[i], now)
    ensures CountIn(starts, now) == |starts|
  {
    if starts != [] {
      CountAll(starts[..|starts| - 1], now);
    }
  }

  /** What falls out of the window at a start stays out of every later window. */
  lemma {:induction false} CountKept(starts: seq<real>, at: real, now: real)
    requires now >= at && AllBefore(starts, at)
    ensures CountIn(KeptStarts(starts, at), now) == CountIn(starts, now)
  {
    if starts != [] {
      var rest, last := starts[..|starts| - 1], starts[|starts| - 1];
      CountKept(rest, at, now);
      if InWindow(last, at) {
        CountAppend(KeptStarts(rest, at), last, now);
      } else {
        assert KeptStarts(rest, at) + [] == KeptStarts(rest, at);
      }
    }
  }

  predicate AllBefore(starts: seq<real>, at: real) {
    forall i :: 0 <= i < |starts| ==> starts[i] <= at
  }

  lemma {:induction false} KeptShape(starts: seq<real>, at: real)
    requires Ascending(starts) && AllBefore(starts, at)
    ensures var k := KeptStarts(starts, at);
            && |k| <= |starts| && Ascending(k) && AllBefore(k, at)
            && (forall i :: 0 <= i < |k| ==> k[i] >= at - CRASH_WINDOW)
            && (forall b :: AllBefore(starts, b) ==> AllBefore(k, b))
  {
    if starts != [] {
      var rest, last := starts[..|starts| - 1], starts[|starts| - 1];
      KeptShape(rest, at);
      assert AllBefore(rest, last);
      forall b | AllBefore(starts, b) ensures AllBefore(KeptStarts(starts, at), b) {
        assert AllBefore(rest, b);
      }
    }
  }

  /** The record a start appends to is in order, bounded, and no older than the window. */
  lemma NextRecordShape(prior: seq<real>, at: real)
    requires Ascending(prior) && AllBefore(prior, at)
    ensures var r := LastStarts(KeptStarts(prior, at) + [at]);
            && 1 <= |r| <= MAX_STARTS && Ascending(r) && AllBefore(r, at) && r[|r| - 1] == at
            && r[0] >= at - CRASH_WINDOW
  {
    KeptShape(prior, at);
    AppendedShape(KeptStarts(prior, at), at);
  }

  lemma AppendedShape(kept: seq<real>, at: real)
    requires Ascending(kept) && AllBefore(kept, at) && forall i :: 0 <= i < |kept| ==> kept[i] >= at - CRASH_WINDOW
    ensures var r := LastStarts(kept + [at]);
            && 1 <= |r| <= MAX_STARTS && Ascending(r) && AllBefore(r, at) && r[|r| - 1] == at
            && r[0] >= at - CRASH_WINDOW
  {
  }

  lemma {:induction false} RecordedIsOrdered(starts: seq<real>)
    requires starts != [] && Ascending(starts)
    ensures var r := Recorded(starts);
            1 <= |r| <= MAX_STARTS && Ascending(r) && AllBefore(r, starts[|starts| - 1])
  {
    if |starts| > 1 {
      var rest, last := starts[..|starts| - 1], starts[|starts| - 1];
      RecordedIsOrdered(rest);
      BeforeLater(Recorded(rest), rest[|rest| - 1], last);
      NextRecordShape(Recorded(rest), last);
    }
  }

  lemma BeforeLater(starts: seq<real>, a: real, b: real)
    requires AllBefore(starts, a) && a <= b
    ensures AllBefore(starts, b)
  {
  }

  function Least(a: nat, b: nat): nat {
    if a <= b then a else b
  }

  /** The bounded, windowed record counts exactly as the complete history does, up to its length. */
  lemma {:induction false} RecordIsLossless(starts: seq<real>, now: real)
    requires starts != [] && Ascending(starts) && now >= starts[|starts| - 1]
    ensures CountIn(Recorded(starts), now) == Least(MAX_STARTS, CountIn(starts, now))
  {
    var rest, last := starts[..|starts| - 1], starts[|starts| - 1];
    if |starts| == 1 {
      assert starts == [] + [last];
      CountAppend([], last, now);
    } else {
      RecordIsLossless(rest, now);
      RecordedIsOrdered(rest);
      BeforeLater(Recorded(rest), rest[|rest| - 1], last);
      NextStartIsLossless(rest, Recorded(rest), last, now);
    }
  }

  lemma NextStartIsLossless(rest: seq<real>, prior: seq<real>, last: real, now: real)
    requires now >= last && Ascending(prior) && AllBefore(prior, last) && |prior| <= MAX_STARTS
    requires CountIn(prior, now) == Least(MAX_STARTS, CountIn(rest, now))
    ensures CountIn(LastStarts(KeptStarts(prior, last) + [last]), now) ==
              Least(MAX_STARTS, CountIn(rest + [last], now))
  {
    hide KeptStarts, CountIn;
    CountKept(prior, last, now);
    KeptShape(prior, last);
    var kept := KeptStarts(prior, last);
    CountAppend(kept, last, now);
    CountAppend(rest, last, now);
    CountBound(kept, now);
    if |kept| == MAX_STARTS {
      DroppingTheOldest(kept, last, now);
    } else {
      CountBound(kept + [last], now);
    }
  }

  /** Dropping the oldest of nine starts loses a count only when all nine are in the window. */
  lemma DroppingTheOldest(kept: seq<real>, last: real, now: real)
    requires |kept| == MAX_STARTS && Ascending(kept) && now >= last
    requires forall i :: 0 <= i < |kept| ==> kept[i] <= last
    ensures CountIn(LastStarts(kept + [last]), now) == Least(MAX_STARTS, CountIn(kept + [last], now))
  {
    var all := kept + [last];
    var tail := all[1..];
    assert all == [all[0]] + tail && LastStarts(all) == tail;
    CountTail(all[0], tail, now);
    if InWindow(all[0], now) {
      CountAll(tail, now);
    } else {
      CountBound(tail, now);
    }
  }

  lemma {:induction false} CountBound(starts: seq<real>, now: real)
    ensures CountIn(starts, now) <= |starts|
  {
    if starts != [] {
      CountBound(starts[..|starts| - 1], now);
    }
  }

  /** How a process ends, as the next one finds it. */
  datatype End = EndedClean | EndedUnclean | LostDocument | BrokenDocument
  /** One process: when it started, and how the one before it had ended. */
  datatype Life = Life(startedAt: real, before: End)

  /** The complete history: every start since the last end that was clean, lost or broken. */
  function FullHistory(lives: seq<Life>): seq<real> {
    if lives == [] then []
    else
      var last := lives[|lives| - 1];
      if last.before.EndedUnclean? then FullHistory(lives[..|lives| - 1]) + [last.startedAt] else [last.startedAt]
  }

  /** What the processes record, each from the document its predecessor left. */
  function RecordedHistory(lives: seq<Life>): seq<real> {
    if lives == [] then []
    else
      var last := lives[|lives| - 1];
      if last.before.EndedUnclean? && |lives| > 1
      then LastStarts(KeptStarts(RecordedHistory(lives[..|lives| - 1]), last.startedAt) + [last.startedAt])
      else [last.startedAt]
  }

  predicate Forward(lives: seq<Life>) {
    forall i, j :: 0 <= i < j < |lives| ==> lives[i].startedAt <= lives[j].startedAt
  }

  lemma {:induction false} HistoryIsRecorded(lives: seq<Life>)
    requires lives != [] && Forward(lives) && !lives[0].before.EndedUnclean?
    ensures RecordedHistory(lives) == Recorded(FullHistory(lives))
    ensures var h := FullHistory(lives);
            h != [] && Ascending(h) && h[|h| - 1] == lives[|lives| - 1].startedAt
  {
    var rest, last := lives[..|lives| - 1], lives[|lives| - 1];
    if |lives| > 1 && last.before.EndedUnclean? {
      HistoryIsRecorded(rest);
      var h := FullHistory(rest);
      assert (h + [last.startedAt])[..|h|] == h;
      assert rest[|rest| - 1].startedAt <= last.startedAt;
    }
  }

  /** Across any number of restarts, with a clock that never goes back, the crash-loop verdict from the eight-entry
      windowed record is the verdict on the complete history of unclean starts. */
  lemma CrashVerdictIsLossless(lives: seq<Life>, now: real)
    requires lives != [] && Forward(lives) && !lives[0].before.EndedUnclean?
    requires now >= lives[|lives| - 1].startedAt
    ensures CountIn(RecordedHistory(lives), now) >= CRASH_LOOP_STARTS <==>
            CountIn(FullHistory(lives), now) >= CRASH_LOOP_STARTS
  {
    HistoryIsRecorded(lives);
    RecordIsLossless(FullHistory(lives), now);
  }
}
