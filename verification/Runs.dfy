/** Safety over whole runs of the station: any number of producers, operators, worker steps, commands
    lost, repeated or late, LogItems and Tracks deleted and engine restarts, in any order. */
module Runs {
  import opened Common
  import opened Composition
  import opened Services
  import opened DomainInvariants
  import opened ServiceSteps
  import opened Playout
  import opened PlayoutInvariants
  import opened PlayoutSteps

  /** One step of a run and the clock it reads. */
  datatype Moment = Moment(step: Step, now: Time)

  ghost function Take(s: Station, m: Moment): Station {
    if Enabled(s, m.step) then Next(s, m.step, m.now) else s
  }

  ghost function After(s: Station, run: seq<Moment>): Station {
    if run == [] then s else Take(After(s, run[..|run| - 1]), run[|run| - 1])
  }

  /** A station before anything happened, under any policy the policy table accepts. */
  ghost predicate Initial(s: Station) {
    && PolicyOk(s.domain.policy)
    && s.domain == Domain(s.domain.policy, map[], map[], map[], map[], map[], map[])
    && s.publications == map[] && s.insertions == map[] && s.logItems == map[] && s.plays == map[]
    && s.issued == map[] && s.commands == {} && s.engines == {s.engine} && s.phase == Booting({}) && s.decks == {}
  }

  // -- the invariant over a run --------------------------------------------------------------------------------

  lemma InitialOk(s: Station)
    requires Initial(s)
    ensures StationOk(s)
  {
    assert forall a, b :: !SameToken(s, a, b);
    assert forall g, i :: !DeckOf(s, g, i);
  }

  lemma ServiceKeeps(s: Station, call: Call, now: Time)
    requires StationOk(s)
    ensures StationOk(WithDomain(s, Serve(s.domain, call, now).domain))
  {
    hide DomainOk, AiringOk, Serve;
    ServeKeeps(s.domain, call, now);
    ServeIsOrdinary(s.domain, call, now);
    hide Serviced, Lives, Remembers;
    ServicedKeeps(s, Serve(s.domain, call, now).domain);
  }

  /** Publishing, and the deletion of a Track or its file, touch only the publication. */
  lemma PublicationKeeps(s: Station, x: ExecutionId, p: Publication)
    requires AiringOk(s) && x in s.Executions() && s.Executions()[x].mix == Some(p.media)
    ensures AiringOk(s.(publications := s.publications[x := p]))
  {
    var n := s.(publications := s.publications[x := p]);
    assert n.Executions() == s.Executions();
    assert InsertionsOk(n) by {
      hide DecksOk, AirOk, IssuedOk, PublicationsOk;
      forall a, b | SameToken(n, a, b) ensures a == b {
        assert SameToken(s, a, b);
      }
    }
    assert PublicationsOk(n) && IssuedOk(n) by { hide DecksOk, AirOk, InsertionsOk; }
    hide InsertionsOk, IssuedOk, PublicationsOk;
    assert DecksOk(n) by { hide AirOk; SameDecks(s, n); }
    hide DecksOk;
    SameAir(s, n);
  }

  lemma PublishKeeps(s: Station, x: ExecutionId)
    requires StationOk(s)
    ensures StationOk(Publish(s, x))
  {
    hide DomainOk, AiringOk;
    if Publish(s, x) != s {
      PublicationKeeps(s, x, Publish(s, x).publications[x]);
    }
  }

  lemma PublishedMedia(s: Station, x: ExecutionId)
    requires AiringOk(s) && x in s.publications
    ensures x in s.Executions() && s.Executions()[x].mix == Some(s.publications[x].media)
  {
    hide InsertionsOk, IssuedOk, DecksOk, AirOk;
  }

  lemma LogItemDeletedKeeps(s: Station, item: LogItemId)
    requires AiringOk(s)
    ensures AiringOk(s.(logItems := s.logItems - {item}))
  {
    var n := s.(logItems := s.logItems - {item});
    assert n.Executions() == s.Executions();
    assert InsertionsOk(n) by {
      hide DecksOk, AirOk, IssuedOk, PublicationsOk;
      forall a, b | SameToken(n, a, b) ensures a == b {
        assert SameToken(s, a, b);
      }
    }
    assert PublicationsOk(n) && IssuedOk(n) by { hide DecksOk, AirOk, InsertionsOk; }
    hide InsertionsOk, IssuedOk, PublicationsOk;
    assert AirOk(n) by { hide DecksOk; SameAir(s, n); }
    hide AirOk;
    FewerLogItemsDecks(s, n);
  }

  lemma FewerLogItemsDecks(s: Station, n: Station)
    requires DecksOk(s) && n == s.(logItems := n.logItems)
    requires forall i :: i in n.logItems ==> i in s.logItems && n.logItems[i] == s.logItems[i]
    ensures DecksOk(n)
  {
    hide WasClaimed;
    forall g, i | DeckOf(n, g, i)
      ensures g in n.engines && i in n.insertions && (i in n.logItems ==> n.logItems[i].claimed)
    {
      assert DeckOf(s, g, i);
    }
    forall i | DeckOf(n, n.engine, i) ensures Handed(n, i) {
      assert DeckOf(s, s.engine, i) && Handed(s, i);
    }
    forall g, a, b | DeckOf(n, g, a) && DeckOf(n, g, b) && SameExecution(n, a, b) ensures a == b {
      assert DeckOf(s, g, a) && DeckOf(s, g, b) && SameExecution(s, a, b);
    }
    forall i ensures n.phase.Booting? ==> !DeckOf(n, n.engine, i) {
      assert s.phase.Booting? ==> !DeckOf(s, s.engine, i);
    }
  }

  lemma BootDoneKeeps(s: Station)
    requires AiringOk(s)
    ensures AiringOk(BootDone(s))
  {
    hide InsertionsOk, IssuedOk, PublicationsOk;
    var n := BootDone(s);
    assert InsertionsOk(n) && IssuedOk(n) && PublicationsOk(n) by { hide DecksOk, AirOk; SameTables(s, n); }
    assert DecksOk(n) by { hide AirOk; SameDecks(s, n); }
    hide DecksOk;
    SameAir(s, n);
  }

  lemma NextKeeps(s: Station, step: Step, now: Time)
    requires StationOk(s) && Enabled(s, step)
    ensures StationOk(Next(s, step, now))
  {
    hide DomainOk, AiringOk, Serve, Publish, PublicationFails, Dispatch, Deliver, AuthorizeOpen, ReportNotAired,
         SyncStarted, SyncEnded, BootSync, BootSettle, HeldStep;
    match step
    case Service(call) => ServiceKeeps(s, call, now);
    case Published(x) => PublishKeeps(s, x);
    case PublicationFailed(x, code) => PublicationFailsKeeps(s, x, code, now);
    case TrackDeleted(x) =>
      if x in s.publications {
        PublishedMedia(s, x);
        PublicationKeeps(s, x, s.publications[x].(trackLive := false));
      }
    case FileLost(x) =>
      if x in s.publications {
        PublishedMedia(s, x);
        PublicationKeeps(s, x, s.publications[x].(filePresent := false));
      }
    case Dispatched(x, token) => DispatchKeeps(s, x, token, now);
    case Delivered(command, item, category) => DeliverKeeps(s, command, item, category, now);
    case LogItemDeleted(item) => LogItemDeletedKeeps(s, item);
    case Authorized(item, named) => AuthorizeKeeps(s, item, named, now);
    case PlaybackClaimed(commits, reported) => ClaimPlaybackKeeps(s, commits, reported);
    case DeckBuilt(built) => BuildDeckKeeps(s, built);
    case AirStarts(item, at) => AirStartKeeps(s, item, at);
    case NotAired(item, token) => ReportNotAiredKeeps(s, item, token, now);
    case EvidenceStarted(x, claimedAt) => SyncStartedKeeps(s, x, claimedAt);
    case EvidenceEnded(x, clean, endedAt, ms) => SyncEndedKeeps(s, x, clean, endedAt, ms, now);
    case Restarted(engine) => RestartKeeps(s, engine);
    case BootSynced(x, claimedAt) => BootSyncKeeps(s, x, claimedAt);
    case BootSettled(x, token, evidenceAt, ms) => BootSettleKeeps(s, x, token, evidenceAt, ms, now);
    case Booted => BootDoneKeeps(s);
    case HeldStepped(x, token) => HeldStepKeeps(s, x, token, now);
  }

  lemma TakeKeeps(s: Station, m: Moment)
    requires StationOk(s)
    ensures StationOk(Take(s, m))
  {
    hide StationOk, Next;
    if Enabled(s, m.step) {
      NextKeeps(s, m.step, m.now);
    }
  }

  /** Every reachable state satisfies every row constraint and every rule between the rows. */
  lemma {:induction false} ReachableOk(s: Station, run: seq<Moment>)
    requires Initial(s)
    ensures StationOk(After(s, run))
  {
    hide StationOk, Take, Initial;
    if run == [] {
      InitialOk(s);
    } else {
      ReachableOk(s, run[..|run| - 1]);
      TakeKeeps(After(s, run[..|run| - 1]), run[|run| - 1]);
    }
  }
}
