/** One whole airing from an empty station: a message is prepared, given its audio and activated, its aggregate is
    rendered, published, dispatched, spliced and claimed, and its deck built; then the same process is handed the same
    LogItem again. What the guarantees speak of does happen. */
module FirstAiring {
  import opened Common
  import opened Ordering
  import opened Composition
  import opened Services
  import opened DomainInvariants
  import opened ExactlyOnce
  import opened Playout
  import opened PlayoutInvariants
  import opened Runs
  import opened Airings

  // -- the domain's part --------------------------------------------------------------------------------------------

  const POLICY: Policy := Policy(0, true, 1200, None, Limits(5, 60, 120))
  const OPERATOR: Actor := Actor(1, true, true)
  const TYPE: TypeFacts := TypeFacts(Some(PublicAddress), true, true, true, true, None)
  const AUDIO: Media := Media(5, 55, Some(1000), None)

  /** An empty domain, and the message as each call leaves it. */
  const NOTHING: Domain := Domain(POLICY, map[], map[], map[], map[], map[], map[])
  const DRAFT: Message := Message(PublicAddress, 7, 1, Prepared, None, None, None, None, None, None, None, None, None)
  const ACTIVE: Message := ActivatedRow(DRAFT.(media := Some(AUDIO)), 1, 1200, 0)
  const COMPONENT: Component := ComponentOf(1, ACTIVE)
  const ACTIVATED: Domain := NOTHING.(policy := POLICY.(generation := 1), messages := map[1 := ACTIVE])

  const CALLS: seq<Call> := [PrepareMessage(1, OPERATOR, 7, TYPE, None),
                             BindMessageMedia(1, OPERATOR, TYPE, AUDIO, true, Bindable),
                             ActivateMessage(1, OPERATOR, TYPE, Bindable, StingerUnusable)]

  lemma OneFits(cs: set<Component>, c: Component)
    requires cs == {c} && c.media == Some(AUDIO)
    ensures Listing(cs) == [c] && Eligibility(POLICY, cs, None).None? && Total([c]) == 1000
  {
    assert Listing(cs) == [c] by {
      assert |cs| == 1;
      assert Listing(cs)[0] in cs;
    }
    assert [c][1..] == [] && Total([]) == 0;
    assert Total([c]) == 1000;
    assert AccountedMs([c], None) == 1000;
    EligibleMeansWithinLimits(POLICY.limits, [c], None);
  }

  lemma Preparing()
    ensures Serve(NOTHING, CALLS[0], 0).domain == NOTHING.(messages := map[1 := DRAFT])
    ensures Serve(NOTHING.(messages := map[1 := DRAFT]), CALLS[1], 0).domain ==
              NOTHING.(messages := map[1 := DRAFT.(media := Some(AUDIO))])
  {
  }

  lemma Activating()
    ensures Serve(NOTHING.(messages := map[1 := DRAFT.(media := Some(AUDIO))]), CALLS[2], 0).domain == ACTIVATED
  {
    var d := NOTHING.(messages := map[1 := DRAFT.(media := Some(AUDIO))]);
    assert Superseded(d, 1).None?;
    var c := ComponentOf(1, DRAFT.(media := Some(AUDIO)));
    assert Candidates(d, 1, None) == {c};
    OneFits({c}, c);
    hide Eligibility;
    assert SuppressStale(Activated(d, 1, None, 1200, 0), 0) == ACTIVATED;
  }

  /** The aggregate of the one active message, its rendition, and the execution before and after it is bound. */
  const SNAPSHOT: Snapshot := Snapshot([COMPONENT], None, 1000)
  const MIX: Media := Media(6, 66, Some(1000), Some(Provenance([MessageInput(PartOf(COMPONENT))], 5, true)))
  const PENDING: Execution := NewExecution(ACTIVATED.policy, SNAPSHOT, Scheduled, 0, 0)
  const READY: Execution := PENDING.(state := Ready, mix := Some(MIX), readyAt := Some(0))

  lemma Built()
    ensures Aggregate({COMPONENT}, None) == BuildResult.Built(SNAPSHOT)
    ensures Eligibility(ACTIVATED.policy, {COMPONENT}, None).None?
  {
    OneFits({COMPONENT}, COMPONENT);
    assert [COMPONENT][1..] == [];
    assert SortBy([COMPONENT], Precedes) == [COMPONENT];
    assert !HasUrgent([COMPONENT]);
  }

  lemma Materializing()
    ensures Serve(ACTIVATED, MaterializeDue(10, 0, StingerUnusable, {}), 0).domain ==
              ACTIVATED.(executions := map[10 := PENDING])
  {
    var d := ACTIVATED;
    assert Refresh(d, 0) == d by {
      assert DueToExpire(d, 0) == {};
      assert SuppressStale(d, 0).executions == map[];
    }
    assert ActiveComponents(d.messages) == {COMPONENT} by {
      assert 1 in d.messages && ComponentOf(1, d.messages[1]) == COMPONENT;
      assert COMPONENT in ActiveComponents(d.messages);
    }
    assert DueTimes(d.messages, 0) == {0} by {
      assert d.messages[1].nextDueAt.value == 0;
    }
    Built();
    NothingOpen(d);
    hide Refresh, Eligibility, Aggregate, ActiveComponents, DueTimes, OpenExecution, BlockingFailure, StingerFor;
    assert Earliest({0}) == 0;
  }

  lemma NothingOpen(d: Domain)
    requires d.executions == map[] && d.policy.stingerKey.None?
    ensures OpenExecution(d).None?
    ensures forall digest :: BlockingFailure(d, digest, {}).None?
    ensures forall cs, reading :: StingerFor(d.policy, cs, reading).None?
  {
  }

  lemma Rendering()
    ensures Serve(ACTIVATED.(executions := map[10 := PENDING]), BindExecutionMix(10, MIX, Bindable), 0).domain ==
              ACTIVATED.(executions := map[10 := READY])
  {
    assert FrozenInputs(SNAPSHOT) == [MessageInput(PartOf(COMPONENT))];
    assert Proves(MIX, SNAPSHOT);
  }

  // -- the station's part -------------------------------------------------------------------------------------------

  lemma Then(s: Station, run: seq<Moment>, step: Step)
    ensures After(s, run + [Moment(step, 0)]) == Take(After(s, run), Moment(step, 0))
  {
    assert (run + [Moment(step, 0)])[..|run|] == run;
    hide Take;
  }

  lemma Serves(q: Station, call: Call)
    ensures Take(q, Moment(Service(call), 0)) == WithDomain(q, Serve(q.domain, call, 0).domain)
  {
    hide Serve;
  }

  lemma Opens(q: Station, x: ExecutionId)
    ensures Take(q, Moment(Published(x), 0)) == Publish(q, x) && Take(q, Moment(Booted, 0)) == BootDone(q)
  {
    hide Publish, BootDone;
  }

  lemma Sends(q: Station, x: ExecutionId, token: Token)
    requires token !in q.issued
    ensures Take(q, Moment(Dispatched(x, token), 0)) == Dispatch(q, x, token, 0)
  {
    hide Dispatch;
  }

  lemma Delivers(q: Station, c: Command, item: LogItemId)
    requires q.phase.Idle? && c in q.commands && item !in q.insertions
    ensures Take(q, Moment(Delivered(c, item, true), 0)) == Deliver(q, c, item, true, 0)
  {
    hide Deliver;
  }

  lemma Decks(q: Station, item: LogItemId)
    ensures q.phase.Idle? ==> Take(q, Moment(Authorized(item, true), 0)) == AuthorizeOpen(q, item, true, 0)
    ensures Take(q, Moment(PlaybackClaimed(true, true), 0)) == ClaimPlayback(q, true, true)
    ensures Take(q, Moment(DeckBuilt(true), 0)) == BuildDeck(q, true)
  {
    hide AuthorizeOpen, ClaimPlayback, BuildDeck;
  }

  /** A station with a READY, published, current execution and nothing in flight. */
  predicate Waiting(s: Station, x: ExecutionId) {
    && s.phase.Idle? && GateOpen(s) && x in s.Executions() && x in s.publications && Insertable(s.publications[x])
    && var e := s.Executions()[x];
    && e.state.Ready? && e.generation == s.domain.policy.generation && e.mix == Some(s.publications[x].media)
    && e.dispatchedAt.None? && e.attempts < MAX_ATTEMPTS
    && s.issued == map[] && s.insertions == map[] && s.logItems == map[] && s.decks == {}
  }

  lemma Dispatching(s: Station, x: ExecutionId)
    requires Waiting(s, x)
    ensures var n := Dispatch(s, x, 20, 0);
            && n == WithRow(s, x, Rotated(s.Executions()[x], 20, 0)).(issued := map[20 := x],
                                                                      commands := s.commands + {Command(x, 20)})
  {
  }

  lemma Splicing(s: Station, x: ExecutionId)
    requires Waiting(s, x)
    ensures var m := Dispatch(s, x, 20, 0);
            var n := Deliver(m, Command(x, 20), 30, true, 0);
            && Admits(m, Command(x, 20), true)
            && n.insertions == map[30 := Insertion(x, 20, s.engine)] && n.logItems == map[30 := LogItem(false, false)]
            && n.publications == s.publications && n.engine == s.engine && n.phase.Idle? && GateOpen(n) && n.decks == {}
            && x in n.Executions() && n.domain.policy == s.domain.policy
            && n.Executions()[x] == AcceptedRow(Rotated(s.Executions()[x], 20, 0), s.engine, 0)
  {
    Dispatching(s, x);
    hide Dispatch;
  }

  /** Spliced: its authority, playback claim and deck; and authority again. */
  lemma Playing(n: Station, x: ExecutionId)
    requires n.insertions == map[30 := Insertion(x, 20, n.engine)] && n.logItems == map[30 := LogItem(false, false)]
    requires n.phase.Idle? && GateOpen(n) && x in n.Executions() && x in n.publications
    requires var e := n.Executions()[x];
             && e.state.Accepted? && e.token == Some(20) && e.generation == n.domain.policy.generation
             && e.mix == Some(n.publications[x].media)
    ensures var a := AuthorizeOpen(n, 30, true, 0);
            var d := BuildDeck(ClaimPlayback(a, true, true), true);
            && a.phase == Opening(30) && d.phase.Idle? && DeckOf(d, n.engine, 30) && d.engine == n.engine
            && AuthorizeOpen(d, 30, true, 0).phase == Opening(30)
  {
    assert Judge(n, 30, true);
    var a := AuthorizeOpen(n, 30, true, 0);
    assert a == WithRow(n, x, ClaimedRow(n.Executions()[x], n.engine, 0)).(phase := Opening(30));
    var c := ClaimPlayback(a, true, true);
    assert c.phase == Building(30) && c.Executions() == a.Executions() && c.insertions == n.insertions;
    var d := BuildDeck(c, true);
    assert d.Executions() == a.Executions() && d.insertions == n.insertions && d.domain == a.domain;
    assert Judge(d, 30, true);
  }

  // -- the whole run ------------------------------------------------------------------------------------------------

  function Opened(): Station {
    Station(NOTHING, map[], map[], map[], map[], map[], {}, 1, {1}, Booting({}), {}, true)
  }

  function ReadyStation(): Station {
    Opened().(domain := ACTIVATED.(executions := map[10 := READY]), publications := map[10 := Publication(MIX, true, true)],
              phase := Phase.Idle)
  }

  function Readying(): seq<Moment> {
    [Moment(Service(CALLS[0]), 0), Moment(Service(CALLS[1]), 0), Moment(Service(CALLS[2]), 0),
     Moment(Service(MaterializeDue(10, 0, StingerUnusable, {})), 0),
     Moment(Service(BindExecutionMix(10, MIX, Bindable)), 0), Moment(Published(10), 0), Moment(Booted, 0)]
  }

  lemma ThreeCalls(s: Station, a: Call, b: Call, c: Call)
    ensures var d := Serve(Serve(Serve(s.domain, a, 0).domain, b, 0).domain, c, 0).domain;
            After(s, [Moment(Service(a), 0), Moment(Service(b), 0), Moment(Service(c), 0)]) == WithDomain(s, d)
  {
    assert After(s, []) == s;
    hide After, Serve, Take;
    Then(s, [], Service(a));
    Serves(s, a);
    var r1 := [] + [Moment(Service(a), 0)];
    Then(s, r1, Service(b));
    Serves(After(s, r1), b);
    var r2 := r1 + [Moment(Service(b), 0)];
    Then(s, r2, Service(c));
    Serves(After(s, r2), c);
    assert r2 + [Moment(Service(c), 0)] == [Moment(Service(a), 0), Moment(Service(b), 0), Moment(Service(c), 0)];
  }

  lemma Activates()
    ensures After(Opened(), Readying()[..3]) == Opened().(domain := ACTIVATED)
  {
    Preparing();
    Activating();
    hide Serve, After;
    ThreeCalls(Opened(), CALLS[0], CALLS[1], CALLS[2]);
    assert Readying()[..3] == [Moment(Service(CALLS[0]), 0), Moment(Service(CALLS[1]), 0), Moment(Service(CALLS[2]), 0)];
  }

  lemma Readies()
    ensures After(Opened(), Readying()) == ReadyStation()
  {
    hide After, Serve, Take;
    Activates();
    Materializing();
    Rendering();
    var s, r3 := Opened(), Readying()[..3];
    var m, b := Service(MaterializeDue(10, 0, StingerUnusable, {})), Service(BindExecutionMix(10, MIX, Bindable));
    Then(s, r3, m);
    Serves(After(s, r3), m.call);
    var r4 := r3 + [Moment(m, 0)];
    Then(s, r4, b);
    Serves(After(s, r4), b.call);
    var r5 := r4 + [Moment(b, 0)];
    Then(s, r5, Published(10));
    Opens(After(s, r5), 10);
    var r6 := r5 + [Moment(Published(10), 0)];
    Then(s, r6, Booted);
    Opens(After(s, r6), 10);
    assert r6 + [Moment(Booted, 0)] == Readying();
  }

  lemma OpenedIsInitial()
    ensures Initial(Opened())
  {
  }

  lemma ReadyIsWaiting()
    ensures Waiting(ReadyStation(), 10)
  {
  }

  function Airing(): seq<Moment> {
    Readying() + [Moment(Dispatched(10, 20), 0), Moment(Delivered(Command(10, 20), 30, true), 0),
                  Moment(Authorized(30, true), 0), Moment(PlaybackClaimed(true, true), 0), Moment(DeckBuilt(true), 0)]
  }

  lemma Splices()
    ensures var w := ReadyStation();
            var n := Deliver(Dispatch(w, 10, 20, 0), Command(10, 20), 30, true, 0);
            After(Opened(), Airing()[..9]) == n
  {
    hide After, Dispatch, Deliver, Take;
    Readies();
    ReadyIsWaiting();
    var s, run, w := Opened(), Readying(), ReadyStation();
    Dispatching(w, 10);
    var d := Dispatch(w, 10, 20, 0);
    assert d.issued == map[20 := 10] && Command(10, 20) in d.commands && d.phase.Idle? && d.insertions == map[];
    Then(s, run, Dispatched(10, 20));
    Sends(w, 10, 20);
    var r1 := run + [Moment(Dispatched(10, 20), 0)];
    assert After(s, r1) == d;
    Then(s, r1, Delivered(Command(10, 20), 30, true));
    Delivers(d, Command(10, 20), 30);
    assert r1 + [Moment(Delivered(Command(10, 20), 30, true), 0)] == Airing()[..9];
  }

  /** A run from an empty station after which the running process has built a deck for LogItem 30, and is handed that
      LogItem again. */
  lemma HandedAgainHappens()
    ensures Initial(Opened())
    ensures var n := After(Opened(), Airing());
            && DeckOf(n, n.engine, 30) && n.phase.Idle?
            && After(Opened(), Airing() + [Moment(Authorized(30, true), 0)]).phase == Opening(30)
  {
    OpenedIsInitial();
    Splices();
    ReadyIsWaiting();
    var s, r2, w := Opened(), Airing()[..9], ReadyStation();
    Splicing(w, 10);
    var n := Deliver(Dispatch(w, 10, 20, 0), Command(10, 20), 30, true, 0);
    hide Dispatch, Deliver, Admits;
    Plays(s, r2, n);
    assert r2 + [Moment(Authorized(30, true), 0), Moment(PlaybackClaimed(true, true), 0), Moment(DeckBuilt(true), 0)] ==
      Airing();
  }

  lemma DeckRun(s: Station, run: seq<Moment>)
    requires After(s, run).phase.Idle?
    ensures After(s, run + [Moment(Authorized(30, true), 0), Moment(PlaybackClaimed(true, true), 0),
                            Moment(DeckBuilt(true), 0)]) ==
              BuildDeck(ClaimPlayback(AuthorizeOpen(After(s, run), 30, true, 0), true, true), true)
  {
    var a, c, b := Moment(Authorized(30, true), 0), Moment(PlaybackClaimed(true, true), 0), Moment(DeckBuilt(true), 0);
    hide After, AuthorizeOpen, ClaimPlayback, BuildDeck, Take;
    Then(s, run, a.step);
    Decks(After(s, run), 30);
    Then(s, run + [a], c.step);
    Decks(After(s, run + [a]), 30);
    Then(s, run + [a] + [c], b.step);
    Decks(After(s, run + [a] + [c]), 30);
    assert run + [a] + [c] + [b] == run + [a, c, b];
  }

  lemma Plays(s: Station, run: seq<Moment>, n: Station)
    requires After(s, run) == n
    requires n.insertions == map[30 := Insertion(10, 20, n.engine)] && n.logItems == map[30 := LogItem(false, false)]
    requires n.phase.Idle? && GateOpen(n) && 10 in n.Executions() && 10 in n.publications
    requires var e := n.Executions()[10];
             && e.state.Accepted? && e.token == Some(20) && e.generation == n.domain.policy.generation
             && e.mix == Some(n.publications[10].media)
    ensures var whole := run + [Moment(Authorized(30, true), 0), Moment(PlaybackClaimed(true, true), 0),
                                Moment(DeckBuilt(true), 0)];
            var d := After(s, whole);
            && DeckOf(d, d.engine, 30) && d.phase.Idle?
            && After(s, whole + [Moment(Authorized(30, true), 0)]).phase == Opening(30)
  {
    Playing(n, 10);
    DeckRun(s, run);
    hide After, AuthorizeOpen, ClaimPlayback, BuildDeck, GateOpen, Take;
    var whole := run + [Moment(Authorized(30, true), 0), Moment(PlaybackClaimed(true, true), 0),
                        Moment(DeckBuilt(true), 0)];
    Then(s, whole, Authorized(30, true));
    Decks(After(s, whole), 30);
  }
}
