/** What each step of the worker and of the playback engine does to the station, stated on its tables alone: when it acts
    and when it leaves everything as it was, and the rows it leaves when it acts. */
module PlayoutEffects {
  import opened Common
  import opened Composition
  import opened Services
  import opened DomainInvariants
  import opened ServiceSteps
  import opened Playout
  import opened PlayoutInvariants
  import opened Runs

  // -- vocabulary ---------------------------------------------------------------------------------------------------

  /** One execution row changed, and nothing else. */
  predicate OneRow(s: Station, n: Station, x: ExecutionId, e: Execution) {
    n == s.(domain := s.domain.(executions := s.domain.executions[x := e]))
  }

  /** The LogItem spliced for the execution's current token. */
  predicate SplicedAs(s: Station, x: ExecutionId, item: LogItemId) {
    && x in s.domain.executions && item in s.insertions && s.insertions[item].execution == x
    && s.domain.executions[x].token == Some(s.insertions[item].token)
  }

  ghost predicate Spliced(s: Station, x: ExecutionId) {
    exists item :: SplicedAs(s, x, item)
  }

  predicate Airable(s: Station, e: Execution) {
    e.generation == s.domain.policy.generation && s.domain.policy.enabled && s.available
  }

  predicate Held(s: Station, x: ExecutionId) {
    x in s.domain.executions && (s.domain.executions[x].state.Accepted? || s.domain.executions[x].state.Claimed?)
  }

  /** The row ended: closed, dated, and its reason kept. */
  predicate EndedAs(s: Station, n: Station, x: ExecutionId, state: ExecutionState, code: FailureCode, now: Time)
    requires x in s.domain.executions
  {
    OneRow(s, n, x, s.domain.executions[x].(state := state, open := false, terminalAt := Some(now), failure := Some(code)))
  }

  /** The execution is sent again under a new token, which is dated and counted; or it fails, when its Track or file is
      gone, or when it has been sent fifty times. */
  predicate SentAgain(s: Station, n: Station, x: ExecutionId, token: Token, now: Time)
    requires x in s.domain.executions && x in s.publications
  {
    var e := s.domain.executions[x];
    if !s.publications[x].trackLive || !s.publications[x].filePresent then EndedAs(s, n, x, Failed, PublicationUnavailable, now)
    else if e.attempts >= 50 then EndedAs(s, n, x, Failed, DispatchExhausted, now)
    else
      && OneRow(s.(issued := s.issued[token := x], commands := s.commands + {Command(x, token)}), n, x,
                e.(token := Some(token), dispatchedAt := Some(now), attempts := e.attempts + 1))
  }

  /** The last command was sent less than a minute ago. */
  predicate Waiting(e: Execution, now: Time) {
    e.dispatchedAt.Some? && now - e.dispatchedAt.value < 60 * 1000000
  }

  // -- the worker ---------------------------------------------------------------------------------------------------

  /** The worker's look at an execution the engine holds. */
  ghost predicate Tended(s: Station, n: Station, x: ExecutionId, token: Token, now: Time) {
    if !Held(s, x) then n == s
    else
      var e := s.domain.executions[x];
      if !Airable(s, e) && (e.state.Accepted? || !Spliced(s, x)) then EndedAs(s, n, x, Suppressed, StaleGeneration, now)
      else if x !in s.publications then n == s
      else if !Spliced(s, x) then if Waiting(e, now) then n == s else SentAgain(s, n, x, token, now)
      else if e.state.Accepted? && forall item :: SplicedAs(s, x, item) ==> item !in s.logItems then
        SentAgain(s, n, x, token, now)
      else n == s
  }

  /** The worker's step on a held execution: a stale one is suppressed, unless a claimed one may still air; a lost command is
      sent again once it is a minute old, and so is one whose LogItem was deleted before its claim; all else waits. */
  lemma TendDoes(s: Station, x: ExecutionId, token: Token, now: Time)
    requires StationOk(s) && Enabled(s, HeldStepped(x, token))
    ensures Tended(s, Next(s, HeldStepped(x, token), now), x, token, now)
  {
    hide StationOk, DomainOk, AiringOk, InsertionOf, SplicedAs, Spliced, Current;
    TokenIsSpliced(s, x);
  }

  lemma TokenIsSpliced(s: Station, x: ExecutionId)
    requires StationOk(s)
    ensures InsertionOf(s, x).Some? <==> Spliced(s, x)
    ensures forall item: LogItemId :: SplicedAs(s, x, item) <==> InsertionOf(s, x) == Some(item)
  {
    hide DomainOk, DecksOk, AirOk, IssuedOk, PublicationsOk;
    forall item: LogItemId | SplicedAs(s, x, item) ensures InsertionOf(s, x) == Some(item) {
      assert Current(s, item);
      CurrentIsUnique(s, item, InsertionOf(s, x).value);
    }
    if InsertionOf(s, x).Some? {
      assert SplicedAs(s, x, InsertionOf(s, x).value);
    }
  }

  /** A sent command that was lost: while fewer than fifty tokens were issued, the worker's step issues a new one exactly
      when a minute has passed since the last, and until then it changes nothing. */
  lemma LostCommandIsResent(s: Station, run: seq<Moment>, x: ExecutionId, token: Token, now: Time)
    requires Initial(s) && Enabled(After(s, run), HeldStepped(x, token))
    requires var n := After(s, run);
             && Held(n, x) && Airable(n, n.domain.executions[x]) && !Spliced(n, x) && x in n.publications
             && n.publications[x].trackLive && n.publications[x].filePresent && n.domain.executions[x].attempts < 50
    ensures var n := After(s, run);
            var m := Next(n, HeldStepped(x, token), now);
            var sentAt := n.domain.executions[x].dispatchedAt;
            && (sentAt.None? || now - sentAt.value >= 60 * 1000000 <==>
                  && m.domain.executions[x].token == Some(token) && m.domain.executions[x].dispatchedAt == Some(now)
                  && m.issued == n.issued[token := x] && m.commands == n.commands + {Command(x, token)})
            && (sentAt.Some? && now - sentAt.value < 60 * 1000000 ==> m == n)
  {
    hide Initial, StationOk, After, Next, Spliced;
    ReachableOk(s, run);
    TendDoes(After(s, run), x, token, now);
    assert token !in After(s, run).issued;
  }

  /** An accepted airing whose LogItem was deleted before its claim: the worker's next step issues a new token, however long
      it has waited. */
  lemma DeletedItemIsResent(s: Station, run: seq<Moment>, x: ExecutionId, item: LogItemId, token: Token, now: Time)
    requires Initial(s) && Enabled(After(s, run), HeldStepped(x, token))
    requires var n := After(s, run);
             && x in n.domain.executions && n.domain.executions[x].state.Accepted? && Airable(n, n.domain.executions[x])
             && SplicedAs(n, x, item) && item !in n.logItems && x in n.publications
             && n.publications[x].trackLive && n.publications[x].filePresent && n.domain.executions[x].attempts < 50
    ensures var n := After(s, run);
            var m := Next(n, HeldStepped(x, token), now);
            && m.domain.executions[x].token == Some(token) && m.domain.executions[x].dispatchedAt == Some(now)
            && m.issued == n.issued[token := x] && m.commands == n.commands + {Command(x, token)}
  {
    hide Initial, StationOk, After, Next, SplicedAs;
    ReachableOk(s, run);
    TendDoes(After(s, run), x, token, now);
    TokenIsSpliced(After(s, run), x);
  }

  ghost predicate Dispatches(s: Station, n: Station, x: ExecutionId, token: Token, now: Time) {
    if !(x in s.domain.executions && x in s.publications) then n == s
    else
      var e := s.domain.executions[x];
      if e.state.Ready? && Airable(s, e) && !Waiting(e, now) then SentAgain(s, n, x, token, now) else n == s
  }

  /** The worker sends a published READY execution while the gate is open, and again after a minute without an answer. */
  lemma DispatchDoes(s: Station, x: ExecutionId, token: Token, now: Time)
    requires Enabled(s, Dispatched(x, token))
    ensures Dispatches(s, Next(s, Dispatched(x, token), now), x, token, now)
  {
  }

  /** Publishing places the READY mix once; a permanent failure ends a READY execution with its code. */
  lemma PublicationDoes(s: Station, x: ExecutionId, code: FailureCode, now: Time)
    ensures var n := Next(s, Published(x), now);
            if x in s.domain.executions && s.domain.executions[x].mix.Some? && x !in s.publications
            then n == s.(publications := s.publications[x := Publication(s.domain.executions[x].mix.value, true, true)])
            else n == s
    ensures var n := Next(s, PublicationFailed(x, code), now);
            if x in s.domain.executions && s.domain.executions[x].state.Ready? &&
               code in {AggregateUnavailable, DestinationConflict}
            then EndedAs(s, n, x, Failed, code, now)
            else n == s
  {
  }

  // -- the engine's answers -----------------------------------------------------------------------------------------

  /** The command may be spliced: it carries the execution's token, no LogItem carries it yet, the execution waits for the
      engine or is held by it and may still air, its Track is live and the category exists. */
  ghost predicate Spliceable(s: Station, c: Command, category: bool) {
    && c.execution in s.domain.executions && c.execution in s.publications && category
    && var e := s.domain.executions[c.execution];
    && e.token == Some(c.token) && (forall item :: item in s.insertions ==> s.insertions[item].token != c.token)
    && (e.state.Ready? || e.state.Accepted? || e.state.Claimed?) && Airable(s, e)
    && s.publications[c.execution].trackLive
  }

  ghost predicate Splices(s: Station, n: Station, c: Command, item: LogItemId, category: bool, now: Time) {
    if !Spliceable(s, c, category) then n == s
    else
      OneRow(s.(insertions := s.insertions[item := Insertion(c.execution, c.token, s.engine)],
                logItems := s.logItems[item := LogItem(false, false)]), n, c.execution,
             s.domain.executions[c.execution].(state := Accepted, acceptedAt := Some(now), engine := Some(s.engine)))
  }

  /** A command that reaches the engine is spliced once, as one unplayed LogItem, and accepted; or changes nothing. */
  lemma DeliverDoes(s: Station, c: Command, item: LogItemId, category: bool, now: Time)
    requires StationOk(s) && Enabled(s, Delivered(c, item, category))
    ensures Splices(s, Next(s, Delivered(c, item, category), now), c, item, category, now)
  {
    hide DomainOk, AiringOk;
    if c.execution in s.publications {
      MixIsPublished(s, c.execution);
    }
  }

  lemma MixIsPublished(s: Station, x: ExecutionId)
    requires StationOk(s) && x in s.publications
    ensures x in s.domain.executions && s.domain.executions[x].mix == Some(s.publications[x].media)
  {
    hide DomainOk;
    PublishedMedia(s, x);
  }

  /** The deck-open decision for a LogItem, by its execution `x`. */
  ghost predicate Decides(s: Station, n: Station, item: LogItemId, x: ExecutionId, named: bool, now: Time)
    requires x in s.domain.executions
  {
    var e := s.domain.executions[x];
    if e.state.Accepted? && e.generation != s.domain.policy.generation then
      EndedAs(s, n, x, Suppressed, StaleGeneration, now)
    else if !named || !s.available || !s.domain.policy.enabled then n == s
    else if e.state.Accepted? then
      if item in s.logItems then
        OneRow(s.(phase := Opening(item)), n, x, e.(state := Claimed, claimedAt := Some(now), engine := Some(s.engine)))
      else n == s
    else if (e.state.Claimed? || e.state.Started?) && e.engine == Some(s.engine) then n == s.(phase := Opening(item))
    else n == s
  }

  /** The engine asks before it opens a deck: the current LogItem of an ACCEPTED execution of this composition is claimed,
      one of an older composition is suppressed, what this process already holds continues, and nothing else opens. */
  lemma AuthorizeDoes(s: Station, item: LogItemId, named: bool, now: Time)
    requires StationOk(s) && Enabled(s, Authorized(item, named))
    ensures (forall x :: !SplicedAs(s, x, item)) ==> Next(s, Authorized(item, named), now) == s
    ensures forall x :: SplicedAs(s, x, item) ==> Decides(s, Next(s, Authorized(item, named), now), item, x, named, now)
  {
    hide DomainOk, AiringOk;
    if item in s.insertions {
      var x := s.insertions[item].execution;
      InsertedIsPublished(s, item);
      assert Current(s, item) <==> SplicedAs(s, x, item);
    }
  }

  lemma InsertedIsPublished(s: Station, item: LogItemId)
    requires StationOk(s) && item in s.insertions
    ensures var x := s.insertions[item].execution;
            x in s.domain.executions && x in s.publications && s.domain.executions[x].mix == Some(s.publications[x].media)
  {
    hide DomainOk, DecksOk, AirOk, IssuedOk;
  }

  /** The item was claimed by this process, whose claim of it as a playback occurrence never committed. */
  predicate NeverBuilt(s: Station, e: Execution, item: LogItemId) {
    e.engine == Some(s.engine) && item in s.logItems && !s.logItems[item].claimed && !s.logItems[item].played
  }

  ghost predicate Reported(s: Station, n: Station, item: LogItemId, x: ExecutionId, token: Token, now: Time)
    requires x in s.domain.executions
  {
    var e := s.domain.executions[x];
    if e.startedAt.Some? || item in s.plays then n == s
    else if !(e.state.Accepted? || (e.state.Claimed? && NeverBuilt(s, e, item))) then n == s
    else if !Airable(s, e) then EndedAs(s, n, x, Suppressed, StaleGeneration, now)
    else x in s.publications && SentAgain(s, n, x, token, now)
  }

  /** An attempt the engine reports as not aired is sent again when nothing of it can air, or suppressed when it is stale. */
  lemma ReportDoes(s: Station, item: LogItemId, token: Token, now: Time)
    requires StationOk(s) && Enabled(s, NotAired(item, token))
    ensures (forall x :: !SplicedAs(s, x, item)) ==> Next(s, NotAired(item, token), now) == s
    ensures forall x :: SplicedAs(s, x, item) ==> Reported(s, Next(s, NotAired(item, token), now), item, x, token, now)
  {
    hide DomainOk, AiringOk;
    if item in s.insertions {
      var x := s.insertions[item].execution;
      InsertedIsPublished(s, item);
      assert Current(s, item) <==> SplicedAs(s, x, item);
    }
  }

  // -- decks and air ------------------------------------------------------------------------------------------------

  /** The playback claim marks the LogItem and lets the deck be built only when it committed and was seen to commit; a deck is
      built only behind it; and a deck's first buffer is recorded once, for a claimed item of the running process. */
  lemma DeckDoes(s: Station, commits: bool, reported: bool, built: bool, item: LogItemId, at: Time, now: Time)
    ensures var n := Next(s, PlaybackClaimed(commits, reported), now);
            if !s.phase.Opening? then n == s
            else if commits && s.phase.item in s.logItems then
              n == s.(logItems := s.logItems[s.phase.item := s.logItems[s.phase.item].(claimed := true)],
                      phase := if reported then Building(s.phase.item) else Idle)
            else n == s.(phase := Idle)
    ensures var n := Next(s, DeckBuilt(built), now);
            if !s.phase.Building? then n == s
            else n == s.(decks := s.decks + (if built then {(s.engine, s.phase.item)} else {}), phase := Idle)
    ensures var n := Next(s, AirStarts(item, at), now);
            if (s.engine, item) in s.decks && item in s.logItems && s.logItems[item].claimed && !s.logItems[item].played
            then n == s.(logItems := s.logItems[item := s.logItems[item].(played := true)], plays := s.plays[item := at])
            else n == s
  {
    assert s.phase.Building? && !built ==> s.decks + {} == s.decks;
  }
}
