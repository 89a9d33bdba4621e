/** Track claims on a publication's protected files against their cleanup (active_messages/track_guard.py and
    retention.py), over every interleaving, with Tracks recreated under any free id: which reference can survive a
    removal, and exactly when none can. */
module TrackGuard {
  import opened Common

  type TrackId = nat
  type Thread = nat
  /** A publication's two protected files: its audio and its waveform. */
  datatype File = Audio | Waveform
  /** What the cleanup, inside the destination lock, has established. */
  datatype Cleaner = Away | Working(thread: Thread) | Authorized(thread: Thread, file: File)

  /** One publication: the destination lock, which files are there, the Track its foreign key points to (`own`), the
      Track id recorded at publication (`snapshot`), and for every Track the protected files it refers to by either
      field. `pending` are lock-free writes that were judged and not yet run. */
  datatype Station = Station(lock: Option<Thread>, there: set<File>, published: bool, own: Option<TrackId>,
                             snapshot: TrackId, retired: bool, tracks: map<TrackId, set<File>>,
                             pending: set<(TrackId, File)>, cleaner: Cleaner, removed: set<File>)

  datatype Step =
    | TakeLock(thread: Thread)
    | Release(thread: Thread)
    | Publish(thread: Thread, track: TrackId)
    | CreateTrack(track: TrackId)
    | Claim(thread: Thread, track: TrackId, file: File)
    | JudgeOwn(track: TrackId, file: File)
    | RunOwn(track: TrackId, file: File)
    | Unrefer(track: TrackId, file: File)
    | DeleteTrack(track: TrackId)
    | LoseFile(file: File)
    | Retire
    | StartCleanup(thread: Thread)
    | Ask(file: File)
    | Remove
    | EndCleanup

  predicate Refers(s: Station, t: TrackId, f: File) {
    t in s.tracks && f in s.tracks[t]
  }

  function WithReference(s: Station, t: TrackId, f: File): Station
    requires t in s.tracks
  {
    s.(tracks := s.tracks[t := s.tracks[t] + {f}])
  }

  /** `_retired_authority` and `_waveform_authority`: retired, no Track of the recorded id, and no reference by either
      field to the file. */
  ghost predicate Unowned(s: Station, f: File) {
    s.retired && s.own.None? && s.snapshot !in s.tracks && forall t :: !Refers(s, t, f)
  }

  ghost function Next(s: Station, step: Step): Station {
    match step
    case TakeLock(t) => if s.lock.None? then s.(lock := Some(t)) else s
    case Release(t) => if s.lock == Some(t) && s.cleaner.Away? then s.(lock := None) else s
    case Publish(t, pk) =>
      if s.lock != Some(t) || s.published || pk in s.tracks then s
      else s.(there := {Audio, Waveform}, published := true, own := Some(pk), snapshot := pk,
              tracks := s.tracks[pk := {Audio, Waveform}])
    // an ordinary Track, under any id no Track has now: also one a deleted Track had
    case CreateTrack(pk) => if pk in s.tracks then s else s.(tracks := s.tracks[pk := {}])
    // a guarded write under the destination lock: refused unless the file is there now
    case Claim(t, pk, f) =>
      if s.lock != Some(t) || f !in s.there then s
      else if pk in s.tracks then WithReference(s, pk, f)
      else s.(tracks := s.tracks[pk := {f}])
    // the lock-free exception: judged now, run later, and then only as an UPDATE of a row of that id
    case JudgeOwn(pk, f) => if s.own == Some(pk) then s.(pending := s.pending + {(pk, f)}) else s
    case RunOwn(pk, f) =>
      if (pk, f) !in s.pending then s
      else
        var done := s.(pending := s.pending - {(pk, f)});
        if pk in s.tracks then WithReference(done, pk, f) else done
    case Unrefer(pk, f) => if pk in s.tracks then s.(tracks := s.tracks[pk := s.tracks[pk] - {f}]) else s
    case DeleteTrack(pk) => s.(tracks := s.tracks - {pk}, own := if s.own == Some(pk) then None else s.own)
    case LoseFile(f) => s.(there := s.there - {f})
    case Retire =>
      if !s.published || s.retired then s
      else s.(retired := true, own := None, tracks := if s.own.Some? then s.tracks - {s.own.value} else s.tracks)
    case StartCleanup(t) => if s.lock.None? then s.(lock := Some(t), cleaner := Working(t)) else s
    case Ask(f) =>
      if s.cleaner.Away? then s
      else s.(cleaner := if Unowned(s, f) then Authorized(s.cleaner.thread, f) else Working(s.cleaner.thread))
    case Remove =>
      if !s.cleaner.Authorized? then s
      else s.(there := s.there - {s.cleaner.file}, removed := s.removed + {s.cleaner.file},
              cleaner := Working(s.cleaner.thread))
    case EndCleanup => if s.cleaner.Away? then s else s.(lock := None, cleaner := Away)
  }

  /** The file is removed, or about to be. */
  predicate Doomed(s: Station, f: File) {
    f in s.removed || (s.cleaner.Authorized? && s.cleaner.file == f)
  }

  ghost predicate Guarded(s: Station) {
    && (s.retired ==> s.published)
    && (s.own.Some? ==> s.published && !s.retired && s.own.value == s.snapshot && s.snapshot in s.tracks)
    && (forall p :: p in s.pending ==> s.published && p.0 == s.snapshot)
    && (!s.cleaner.Away? ==> s.lock == Some(s.cleaner.thread))
    && (forall f :: Doomed(s, f) ==> s.retired && forall t :: Refers(s, t, f) ==> t == s.snapshot)
    && (forall f :: f in s.removed ==> f !in s.there)
  }

  ghost predicate Initial(s: Station) {
    && s.lock.None? && !s.published && s.own.None? && !s.retired && s.pending == {} && s.cleaner.Away?
    && s.removed == {} && forall t, f :: !Refers(s, t, f)
  }

  /** A step gives a Track a reference to a doomed file only by running a lock-free write judged before. */
  lemma NewReference(s: Station, step: Step, t: TrackId, f: File)
    requires Guarded(s) && Honest(s, step) && Doomed(s, f) && !Refers(s, t, f) && Refers(Next(s, step), t, f)
    ensures step == RunOwn(t, f) && (t, f) in s.pending && t == s.snapshot && t in s.tracks
  {
  }

  lemma NextKeeps(s: Station, step: Step)
    requires Guarded(s) && Honest(s, step)
    ensures Guarded(Next(s, step))
  {
    var n := Next(s, step);
    forall f | Doomed(n, f) ensures n.retired && forall t :: Refers(n, t, f) ==> t == n.snapshot {
      if Doomed(s, f) {
        forall t | Refers(n, t, f) ensures t == n.snapshot {
          if !Refers(s, t, f) {
            NewReference(s, step, t, f);
          }
        }
      } else {
        assert step == Ask(f) && n.tracks == s.tracks;
        assert forall t :: Refers(n, t, f) ==> Refers(s, t, f);
      }
    }
    forall f | f in n.removed ensures f !in n.there {
      assert Doomed(s, f);
    }
  }

  /** The cleaning thread claims nothing of its own. */
  predicate Honest(s: Station, step: Step) {
    step.Claim? && !s.cleaner.Away? ==> s.cleaner.thread != step.thread
  }

  ghost function After(s: Station, run: seq<Step>): Station {
    if run == [] then s
    else
      var before := After(s, run[..|run| - 1]);
      if Honest(before, run[|run| - 1]) then Next(before, run[|run| - 1]) else before
  }

  lemma {:induction false} ReachableGuarded(s: Station, run: seq<Step>)
    requires Initial(s)
    ensures Guarded(After(s, run))
  {
    hide Next, Guarded;
    if run == [] {
      InitialGuarded(s);
    } else {
      ReachableGuarded(s, run[..|run| - 1]);
      if Honest(After(s, run[..|run| - 1]), run[|run| - 1]) {
        NextKeeps(After(s, run[..|run| - 1]), run[|run| - 1]);
      }
    }
  }

  lemma InitialGuarded(s: Station)
    requires Initial(s)
    ensures Guarded(s)
  {
  }

  lemma AfterLast(s: Station, run: seq<Step>, more: seq<Step>)
    requires more != []
    ensures var before := After(s, run + more[..|more| - 1]);
            After(s, run + more) == if Honest(before, more[|more| - 1]) then Next(before, more[|more| - 1]) else before
  {
    hide Next, Honest;
    assert (run + more)[..|run + more| - 1] == run + more[..|more| - 1];
  }

  // -- what the guard and the cleanup do ----------------------------------------------------------------------------

  /** The guard admits a write under the lock exactly while the file is there, and the cleanup, inside that lock, is granted a
      file exactly when its publication is retired, no Track of its id is left and no row of either field refers to it; a
      granted file is removed once, and nothing else is. */
  lemma GuardDoes(s: Station, thread: Thread, t: TrackId, f: File)
    ensures var n := Next(s, Claim(thread, t, f));
            if s.lock == Some(thread) && f in s.there then
              && n == s.(tracks := n.tracks) && n.tracks.Keys == s.tracks.Keys + {t}
              && forall u, g :: Refers(n, u, g) <==> Refers(s, u, g) || (u == t && g == f)
            else n == s
    ensures var n := Next(s, Ask(f));
            && n == s.(cleaner := n.cleaner) && (n.cleaner.Away? <==> s.cleaner.Away?)
            && (!s.cleaner.Away? ==> n.cleaner.thread == s.cleaner.thread)
            && (n.cleaner.Authorized? && n.cleaner.file == f <==>
                  !s.cleaner.Away? && s.retired && s.own.None? && s.snapshot !in s.tracks &&
                  forall u :: u in s.tracks ==> f !in s.tracks[u])
    ensures var n := Next(s, Remove);
            && (forall g :: g in n.there <==> g in s.there && !(s.cleaner.Authorized? && g == s.cleaner.file))
            && (forall g :: g in n.removed <==> g in s.removed || (s.cleaner.Authorized? && g == s.cleaner.file))
            && !n.cleaner.Authorized? && n.tracks == s.tracks
  {
    assert Unowned(s, f) <==> s.retired && s.own.None? && s.snapshot !in s.tracks &&
                              (forall u :: u in s.tracks ==> f !in s.tracks[u]) by {
      if forall u :: u in s.tracks ==> f !in s.tracks[u] {
        assert forall u :: !Refers(s, u, f);
      }
      if forall u :: !Refers(s, u, f) {
        forall u | u in s.tracks ensures f !in s.tracks[u] {
          assert !Refers(s, u, f);
        }
      }
    }
  }

  // -- what can refer to a removed file -----------------------------------------------------------------------------

  /** Whatever happens: a file the cleanup removed never comes back, and the only Track that can ever refer to it is one
      with the id of the publication's own, deleted Track. */
  lemma OnlyTheSnapshotDangles(s: Station, run: seq<Step>, f: File, t: TrackId)
    requires Initial(s) && f in After(s, run).removed
    ensures After(s, run).retired && f !in After(s, run).there
    ensures Refers(After(s, run), t, f) ==> t == After(s, run).snapshot
  {
    ReachableGuarded(s, run);
    hide After;
    assert Doomed(After(s, run), f);
  }

  /** The cleanup asks and is granted. */
  ghost predicate Granted(s: Station, f: File) {
    !s.cleaner.Away? && Unowned(s, f)
  }

  /** Nothing refers to the file if it is removed. */
  ghost predicate Clean(s: Station, t: TrackId, f: File) {
    f in s.removed ==> !Refers(s, t, f)
  }

  /** No lock-free write is still to run for the file, and if it is doomed nothing refers to it. */
  ghost predicate Unthreatened(s: Station, f: File) {
    s.retired && (s.snapshot, f) !in s.pending && (Doomed(s, f) ==> forall t :: !Refers(s, t, f))
  }

  lemma NextUnthreatened(s: Station, step: Step, f: File)
    requires Guarded(s) && Honest(s, step) && Unthreatened(s, f)
    ensures Unthreatened(Next(s, step), f)
  {
    var n := Next(s, step);
    if Doomed(n, f) {
      forall t ensures !Refers(n, t, f) {
        if Doomed(s, f) {
          if Refers(n, t, f) {
            NewReference(s, step, t, f);
          }
        } else {
          assert step == Ask(f) && !Refers(s, t, f);
        }
      }
    }
  }

  lemma {:induction false} StaysUnthreatened(s: Station, run: seq<Step>, more: seq<Step>, f: File)
    requires Initial(s) && Unthreatened(After(s, run), f)
    ensures Unthreatened(After(s, run + more), f)
  {
    hide Next, Honest, Guarded, Unthreatened;
    if more == [] {
      assert run + more == run;
    } else {
      var rest := more[..|more| - 1];
      StaysUnthreatened(s, run, rest, f);
      AfterLast(s, run, more);
      ReachableGuarded(s, run + rest);
      if Honest(After(s, run + rest), more[|more| - 1]) {
        NextUnthreatened(After(s, run + rest), more[|more| - 1], f);
      }
    }
  }

  /** Any step but a claim is one of every run. */
  lemma One(s: Station, run: seq<Step>, step: Step)
    requires !step.Claim?
    ensures After(s, run + [step]) == Next(After(s, run), step)
  {
    assert (run + [step])[..|run|] == run;
    hide Next;
  }

  /** A write judged while the Track lived lands on whatever row has its id when it runs: the file is removed, a Track is
      created again under the id, and the write gives it the reference. */
  lemma WriteLands(s: Station, run: seq<Step>, f: File)
    requires After(s, run).cleaner.Authorized? && After(s, run).cleaner.file == f
    requires var q := After(s, run); (q.snapshot, f) in q.pending && q.snapshot !in q.tracks
    ensures var q := After(s, run);
            !Clean(After(s, run + [Remove, EndCleanup, CreateTrack(q.snapshot), RunOwn(q.snapshot, f)]), q.snapshot, f)
  {
    var q := After(s, run);
    var c, d := CreateTrack(q.snapshot), RunOwn(q.snapshot, f);
    One(s, run, Remove);
    One(s, run + [Remove], EndCleanup);
    One(s, run + [Remove] + [EndCleanup], c);
    One(s, run + [Remove] + [EndCleanup] + [c], d);
    assert run + [Remove] + [EndCleanup] + [c] + [d] == run + [Remove, EndCleanup, c, d];
    LandsOn(q, f);
    hide After, Next;
  }

  lemma LandsOn(q: Station, f: File)
    requires q.cleaner.Authorized? && q.cleaner.file == f && (q.snapshot, f) in q.pending && q.snapshot !in q.tracks
    ensures !Clean(Next(Next(Next(Next(q, Remove), EndCleanup), CreateTrack(q.snapshot)), RunOwn(q.snapshot, f)),
                   q.snapshot, f)
  {
    var removed := Next(Next(q, Remove), EndCleanup);
    assert f in removed.removed && removed.tracks == q.tracks && removed.pending == q.pending;
    var again := Next(removed, CreateTrack(q.snapshot));
    assert f in again.removed && again.tracks == q.tracks[q.snapshot := {}] && again.pending == q.pending;
  }

  /** Over every interleaving of publishing, guarded writes, deletion, recreation, retirement and cleanup: once the
      cleanup is granted a file, no continuation ever shows a Track referring to it after its removal if and only if no
      lock-free write for it, judged while the publication's Track still lived, is still to run. */
  lemma RemovalIsFinalExactly(s: Station, run: seq<Step>, f: File)
    requires Initial(s) && Granted(After(s, run), f)
    ensures (forall more, t :: Clean(After(s, run + [Ask(f)] + more), t, f)) <==>
              (After(s, run).snapshot, f) !in After(s, run).pending
  {
    var q, granted := After(s, run), run + [Ask(f)];
    AfterLast(s, run, [Ask(f)]);
    assert [Ask(f)][..0] == [] && run + [] == run;
    var n := After(s, granted);
    assert n == q.(cleaner := Authorized(q.cleaner.thread, f));
    if (q.snapshot, f) in q.pending {
      WriteLands(s, granted, f);
      assert !Clean(After(s, granted + [Remove, EndCleanup, CreateTrack(q.snapshot), RunOwn(q.snapshot, f)]), q.snapshot, f);
    } else {
      assert Unthreatened(n, f) by {
        forall t ensures !Refers(n, t, f) {
          assert !Refers(q, t, f);
        }
      }
      forall more, t ensures Clean(After(s, granted + more), t, f) {
        StaysUnthreatened(s, granted, more, f);
        hide After;
        assert f in After(s, granted + more).removed ==> Doomed(After(s, granted + more), f);
      }
    }
  }

  const EMPTY: Station := Station(None, {}, false, None, 0, false, map[], {}, Away, {})

  /** Such a run: Track 7's audio path is judged while it is the publication's own; the publication is retired, its file
      removed, Track 7 created again as an ordinary Track, and only then the judged write runs. */
  lemma RecreatedTrackDangles()
    ensures Initial(EMPTY)
    ensures var run := [TakeLock(1), Publish(1, 7), Release(1), JudgeOwn(7, Audio), Retire, StartCleanup(2), Ask(Audio),
                        Remove, EndCleanup, CreateTrack(7), RunOwn(7, Audio)];
            Audio in After(EMPTY, run).removed && Refers(After(EMPTY, run), 7, Audio)
  {
    var before := [TakeLock(1), Publish(1, 7), Release(1), JudgeOwn(7, Audio), Retire, StartCleanup(2), Ask(Audio)];
    Granting();
    GrantedRun();
    hide Next, After;
    WriteLands(EMPTY, before, Audio);
    assert before + [Remove, EndCleanup, CreateTrack(7), RunOwn(7, Audio)] ==
      [TakeLock(1), Publish(1, 7), Release(1), JudgeOwn(7, Audio), Retire, StartCleanup(2), Ask(Audio),
       Remove, EndCleanup, CreateTrack(7), RunOwn(7, Audio)];
  }

  lemma GrantedRun()
    ensures var s := Next(Next(Next(Next(EMPTY, TakeLock(1)), Publish(1, 7)), Release(1)), JudgeOwn(7, Audio));
            After(EMPTY, [TakeLock(1), Publish(1, 7), Release(1), JudgeOwn(7, Audio), Retire, StartCleanup(2), Ask(Audio)])
              == Next(Next(Next(s, Retire), StartCleanup(2)), Ask(Audio))
  {
    assert After(EMPTY, []) == EMPTY;
    hide Next, After;
    var r1 := [] + [TakeLock(1)];
    One(EMPTY, [], TakeLock(1));
    var r2 := r1 + [Publish(1, 7)];
    One(EMPTY, r1, Publish(1, 7));
    var r3 := r2 + [Release(1)];
    One(EMPTY, r2, Release(1));
    var r4 := r3 + [JudgeOwn(7, Audio)];
    One(EMPTY, r3, JudgeOwn(7, Audio));
    var r5 := r4 + [Retire];
    One(EMPTY, r4, Retire);
    var r6 := r5 + [StartCleanup(2)];
    One(EMPTY, r5, StartCleanup(2));
    One(EMPTY, r6, Ask(Audio));
    assert r6 + [Ask(Audio)] ==
      [TakeLock(1), Publish(1, 7), Release(1), JudgeOwn(7, Audio), Retire, StartCleanup(2), Ask(Audio)];
  }

  lemma Granting()
    ensures var s := Next(Next(Next(Next(EMPTY, TakeLock(1)), Publish(1, 7)), Release(1)), JudgeOwn(7, Audio));
            var q := Next(Next(Next(s, Retire), StartCleanup(2)), Ask(Audio));
            && q.cleaner == Authorized(2, Audio) && q.snapshot == 7 && (7, Audio) in q.pending && 7 !in q.tracks
  {
    var s1 := Next(Next(EMPTY, TakeLock(1)), Publish(1, 7));
    assert s1.own == Some(7) && s1.snapshot == 7 && s1.tracks == map[7 := {Audio, Waveform}] && s1.lock == Some(1);
    var s2 := Next(Next(s1, Release(1)), JudgeOwn(7, Audio));
    assert s2.pending == {(7, Audio)} && s2.tracks == s1.tracks && s2.own == Some(7) && s2.lock.None?;
    var s3 := Next(Next(s2, Retire), StartCleanup(2));
    assert s3.tracks == map[] && s3.pending == {(7, Audio)} && s3.cleaner == Working(2) && s3.retired && s3.own.None?;
    assert Unowned(s3, Audio);
  }

  /** The lock-free exception never brings a Track back: it writes only a row that exists, and only one with the id of
      the publication's own Track; after the retirement it changes something exactly when a Track has that id again. */
  lemma LockFreeNeverCreates(s: Station, run: seq<Step>, t: TrackId, f: File)
    requires Initial(s)
    ensures var b := After(s, run);
            var n := Next(b, RunOwn(t, f));
            && n.tracks.Keys == b.tracks.Keys
            && (n.tracks != b.tracks <==> (t, f) in b.pending && b.snapshot in b.tracks && !Refers(b, b.snapshot, f))
            && (n.tracks != b.tracks ==> t == b.snapshot && n.tracks == b.tracks[t := b.tracks[t] + {f}])
  {
    ReachableGuarded(s, run);
    hide After;
    RunOwnEffect(After(s, run), t, f);
  }

  lemma RunOwnEffect(b: Station, t: TrackId, f: File)
    requires forall p :: p in b.pending ==> p.0 == b.snapshot
    ensures var n := Next(b, RunOwn(t, f));
            && n.tracks.Keys == b.tracks.Keys
            && (n.tracks != b.tracks <==> (t, f) in b.pending && b.snapshot in b.tracks && !Refers(b, b.snapshot, f))
            && (n.tracks != b.tracks ==> t == b.snapshot && n.tracks == b.tracks[t := b.tracks[t] + {f}])
  {
    if (t, f) in b.pending {
      assert t == b.snapshot;
      if t in b.tracks {
        assert Refers(b, t, f) ==> b.tracks[t] + {f} == b.tracks[t];
        assert Next(b, RunOwn(t, f)).tracks[t] == b.tracks[t] + {f};
      }
    }
  }
}
