/** Identity-preserving removal (active_messages/quarantine.py): every system call of the cleanup in the
    source's order, with any acts of other processes, a failure or a crash before each of them. */
module Quarantine {
  import opened Common
  import opened Ordering
  import opened Disk
  import opened Custody

  // -- the invariant ------------------------------------------------------------------------------------------------

  ghost predicate HoldsPayloads(d: Disk, trace: seq<Event>) {
    && (forall t :: t in Held(trace) ==> t in d.ops && d.ops[t].payload == Some(Held(trace)[t]))
    && (forall t :: t in d.ops && d.ops[t].payload.Some? ==> t in Held(trace))
  }

  /** A payload with its manifest's inode number is the very object the manifest was made of, even though inode
      numbers are reused: the number was taken while that object was held open. */
  ghost predicate OwnPayloads(d: Disk, verified: map<Token, ObjectId>) {
    forall t :: t in d.ops && d.ops[t].manifest.Written? && d.ops[t].payload.Some? ==>
      OwnPayload(d, verified, t, d.ops[t].manifest.record, d.ops[t].payload.value)
  }

  predicate OwnPayload(d: Disk, verified: map<Token, ObjectId>, t: Token, record: Manifest, o: ObjectId) {
    o in d.objects && d.objects[o].ino == record.ino ==>
      t in verified && verified[t] == o && d.objects[o].regular && d.objects[o].size == record.size
  }

  ghost predicate ClaimedAreGone(d: Disk, trace: seq<Event>) {
    forall o :: o in Claimed(trace) ==> o in d.objects && Links(d, o) == 0
  }

  ghost predicate InOrder(d: Disk, trace: seq<Event>, verified: map<Token, ObjectId>) {
    && DiskOk(d) && Lawful(trace, d.objects) && ClaimedOnce(trace)
    && HoldsPayloads(d, trace) && OwnPayloads(d, verified) && ClaimedAreGone(d, trace) && verified == Owned(trace)
  }

  // -- what keeps it ------------------------------------------------------------------------------------------------

  /** Other processes acted, and the cleanup may have died. */
  ghost predicate Waited(d: Disk, n: Disk) {
    && n.ops == d.ops && (n.pinned == d.pinned || n.pinned == {}) && KeepsObjects(d.objects, n.objects)
    && (forall o :: o in d.objects && Links(d, o) == 0 ==> Links(n, o) == 0)
  }

  lemma WaitingKeeps(d: Disk, n: Disk, trace: seq<Event>, verified: map<Token, ObjectId>)
    requires InOrder(d, trace, verified) && DiskOk(n) && Waited(d, n)
    ensures InOrder(n, trace, verified)
  {
    hide Links, Held, Claimed, DiskOk;
    LawfulGrows(trace, d.objects, n.objects);
    hide Lawful;
    forall t | t in n.ops && n.ops[t].manifest.Written? && n.ops[t].payload.Some?
      ensures OwnPayload(n, verified, t, n.ops[t].manifest.record, n.ops[t].payload.value)
    {
      assert OwnPayload(d, verified, t, d.ops[t].manifest.record, d.ops[t].payload.value);
      assert d.ops[t].payload.value in d.objects by { PayloadIsAnObject(d, trace, t, verified); }
    }
  }

  lemma PayloadIsAnObject(d: Disk, trace: seq<Event>, t: Token, verified: map<Token, ObjectId>)
    requires InOrder(d, trace, verified) && t in d.ops && d.ops[t].payload.Some?
    ensures d.ops[t].payload.value in d.objects && t in Held(trace) && Held(trace)[t] == d.ops[t].payload.value
    ensures Links(d, d.ops[t].payload.value) >= 1
  {
    hide Links, Held, Lawful, Claimed;
    UnlinkedLinks(d, t, d.ops[t].payload.value);
  }

  /** Dying closes every descriptor. */
  lemma DyingKeeps(d: Disk)
    requires DiskOk(d)
    ensures DiskOk(d.(pinned := {}))
  {
    var n := d.(pinned := {});
    FewerLinksOk(d, n);
  }

  /** A name is opened: its object's inode number stays its own until it is closed. */
  lemma PinningKeeps(d: Disk, o: ObjectId, trace: seq<Event>, verified: map<Token, ObjectId>)
    requires InOrder(d, trace, verified) && o in d.objects && Links(d, o) > 0
    ensures InOrder(d.(pinned := d.pinned + {o}), trace, verified)
  {
    var n := d.(pinned := d.pinned + {o});
    assert forall x :: Links(n, x) == Links(d, x);
    hide Links, Lawful, ClaimedOnce, Held, Claimed;
    forall a: ObjectId, b: ObjectId | Live(n, a) && Live(n, b) && n.objects[a].ino == n.objects[b].ino ensures a == b {
      assert Live(d, a) && Live(d, b);
    }
  }

  lemma UnpinningKeeps(d: Disk, pinned: set<ObjectId>, trace: seq<Event>, verified: map<Token, ObjectId>)
    requires InOrder(d, trace, verified) && pinned <= d.pinned
    ensures InOrder(d.(pinned := pinned), trace, verified)
  {
    var n := d.(pinned := pinned);
    assert forall x :: Links(n, x) == Links(d, x);
    hide Links, Lawful, ClaimedOnce, Held, Claimed;
    assert DiskOk(n) by { FewerLinksOk(d, n); }
  }

  /** Asking, inspecting and proving change nothing on disk. */
  lemma ObservedKeeps(d: Disk, e: Event, trace: seq<Event>, verified: map<Token, ObjectId>)
    requires InOrder(d, trace, verified) && LawfulAt(trace + [e], |trace|, d.objects)
    requires e.Asked? || e.Inspected? || e.Proved?
    ensures InOrder(d, trace + [e], verified)
  {
    LawfulAppend(trace, e, d.objects);
    HeldAppend(trace, e);
    PlainAppend(trace, e);
    hide Lawful, LawfulAt, Held, Owned, DiskOk, Links, Claimed, ClaimedOnce;
  }

  /** A complete manifest names the object it was made of as the operation's own. */
  lemma RecordedKeeps(d: Disk, t: Token, o: ObjectId, record: Manifest, trace: seq<Event>, verified: map<Token, ObjectId>)
    requires InOrder(d, trace, verified) && t in d.ops && d.ops[t].payload.None?
    requires o in d.objects && d.objects[o].ino == record.ino && d.objects[o].size == record.size
    requires trace != [] && trace[|trace| - 1] == Inspected(o, 1)
    ensures InOrder(d.(ops := d.ops[t := Operation(Written(record), None)]), trace + [Recorded(t, o, record)],
                    verified[t := o])
  {
    var e, n := Recorded(t, o, record), d.(ops := d.ops[t := Operation(Written(record), None)]);
    RecordedIsLawful(d, t, o, record, trace);
    OtherOwnPayloads(d, n, verified, verified[t := o], t);
    LawfulAppend(trace, e, d.objects);
    HeldAppend(trace, e);
    PlainAppend(trace, e);
    hide OwnPayloads, Lawful, LawfulAt, Held, Owned, Claimed, ClaimedOnce;
    SamePayloadsDisk(d, n);
    hide Links, DiskOk;
  }

  lemma RecordedIsLawful(d: Disk, t: Token, o: ObjectId, record: Manifest, trace: seq<Event>)
    requires HoldsPayloads(d, trace) && t in d.ops && d.ops[t].payload.None?
    requires o in d.objects && d.objects[o].ino == record.ino && d.objects[o].size == record.size
    requires trace != [] && trace[|trace| - 1] == Inspected(o, 1)
    ensures LawfulAt(trace + [Recorded(t, o, record)], |trace|, d.objects)
  {
    hide Held, Owned;
    assert (trace + [Recorded(t, o, record)])[..|trace|] == trace;
  }

  /** Only `Reclaimed` claims an object. */
  lemma PlainAppend(trace: seq<Event>, e: Event)
    requires !e.Reclaimed?
    ensures Claimed(trace + [e]) == Claimed(trace)
    ensures ClaimedOnce(trace) ==> ClaimedOnce(trace + [e])
  {
    var n := trace + [e];
    forall o | o in Claimed(trace) ensures o in Claimed(n) {
      var i :| 0 <= i < |trace| && trace[i].Reclaimed? && trace[i].file == o;
      assert n[i].file == o;
    }
  }

  /** Operation directories and manifests are made and cleared beside the payloads. */
  ghost predicate SamePayloads(d: Disk, n: Disk) {
    && n == d.(ops := n.ops)
    && (forall t :: (t in d.ops && d.ops[t].payload.Some?) <==> (t in n.ops && n.ops[t].payload.Some?))
    && (forall t :: t in d.ops && d.ops[t].payload.Some? ==> n.ops[t].payload == d.ops[t].payload)
  }

  lemma SamePayloadsDisk(d: Disk, n: Disk)
    requires DiskOk(d) && SamePayloads(d, n)
    ensures DiskOk(n) && forall o :: Links(n, o) == Links(d, o)
  {
    forall o ensures Links(n, o) == Links(d, o) {
      EmptyOperationLinks(d, n, o);
    }
    hide Links;
    FewerLinksOk(d, n);
  }

  lemma SamePayloadsKeep(d: Disk, n: Disk, trace: seq<Event>, verified: map<Token, ObjectId>)
    requires InOrder(d, trace, verified) && SamePayloads(d, n) && OwnPayloads(n, verified)
    ensures InOrder(n, trace, verified)
  {
    hide Links, Held, Owned, Claimed, Lawful, OwnPayloads, ClaimedOnce;
    SamePayloadsDisk(d, n);
  }

  lemma MovedInKeeps(d: Disk, t: Token, trace: seq<Event>, verified: map<Token, ObjectId>)
    requires InOrder(d, trace, verified) && d.home.Some? && t in d.ops && d.ops[t].payload.None?
    requires d.ops[t].manifest.Written? ==> OwnPayload(d, verified, t, d.ops[t].manifest.record, d.home.value)
    requires trace != [] && trace[|trace| - 1].Recorded? && trace[|trace| - 1].op == t
    ensures InOrder(MovedIn(d, t), trace + [Moved(t, d.home.value)], verified)
  {
    var e := Moved(t, d.home.value);
    assert LawfulAt(trace + [e], |trace|, d.objects) by {
      hide Held, Owned, Lawful, Links, OwnPayloads;
      HomeIsAnObject(d);
      assert (trace + [e])[..|trace|] == trace;
    }
    HeldAppend(trace, e);
    hide Links, Lawful, LawfulAt, Held, Owned, Claimed, ClaimedOnce, DiskOk, HoldsPayloads, OwnPayloads, OwnPayload, MovedIn;
    LawfulAppend(trace, e, d.objects);
    PlainAppend(trace, e);
    MovedInDisk(d, t);
    MovedInPayloads(d, t, trace, verified, e);
  }

  lemma MovedInDisk(d: Disk, t: Token)
    requires DiskOk(d) && d.home.Some? && t in d.ops && d.ops[t].payload.None?
    ensures DiskOk(MovedIn(d, t)) && MovedIn(d, t).objects == d.objects
    ensures forall x :: Links(MovedIn(d, t), x) == Links(d, x)
  {
    var n := MovedIn(d, t);
    forall x ensures Links(n, x) == Links(d, x) {
      MovedInLinks(d, t, x);
    }
    hide Links;
    FewerLinksOk(d, n);
  }

  lemma MovedInPayloads(d: Disk, t: Token, trace: seq<Event>, verified: map<Token, ObjectId>, e: Event)
    requires HoldsPayloads(d, trace) && OwnPayloads(d, verified)
    requires d.home.Some? && t in d.ops && d.ops[t].payload.None? && e == Moved(t, d.home.value)
    requires d.ops[t].manifest.Written? ==> OwnPayload(d, verified, t, d.ops[t].manifest.record, d.home.value)
    ensures HoldsPayloads(MovedIn(d, t), trace + [e]) && OwnPayloads(MovedIn(d, t), verified)
  {
    HeldAppend(trace, e);
    hide Held;
  }

  lemma HomeIsAnObject(d: Disk)
    requires DiskOk(d) && d.home.Some?
    ensures d.home.value in d.objects && Links(d, d.home.value) > 0
  {
  }

  lemma ReturnedKeeps(d: Disk, t: Token, trace: seq<Event>, verified: map<Token, ObjectId>)
    requires InOrder(d, trace, verified) && d.home.None? && t in d.ops && d.ops[t].payload.Some?
    ensures InOrder(PutBack(d, t), trace + [Returned(t, d.ops[t].payload.value, None)], verified)
  {
    var e := Returned(t, d.ops[t].payload.value, None);
    PayloadIsAnObject(d, trace, t, verified);
    assert LawfulAt(trace + [e], |trace|, d.objects) by {
      hide Held, Owned, Lawful, Links, OwnPayloads, DiskOk;
      assert (trace + [e])[..|trace|] == trace;
    }
    HeldAppend(trace, e);
    hide Links, Lawful, LawfulAt, Held, Owned, Claimed, ClaimedOnce, DiskOk, HoldsPayloads, OwnPayloads, PutBack;
    LawfulAppend(trace, e, d.objects);
    PlainAppend(trace, e);
    PutBackDisk(d, t);
    PutBackPayloads(d, t, trace, verified, e);
  }

  lemma PutBackDisk(d: Disk, t: Token)
    requires DiskOk(d) && d.home.None? && t in d.ops && d.ops[t].payload.Some?
    ensures DiskOk(PutBack(d, t)) && PutBack(d, t).objects == d.objects
    ensures forall x :: Links(PutBack(d, t), x) == Links(d, x)
  {
    var n := PutBack(d, t);
    forall x ensures Links(n, x) == Links(d, x) {
      PutBackLinks(d, t, x);
    }
    hide Links;
    FewerLinksOk(d, n);
  }

  lemma PutBackPayloads(d: Disk, t: Token, trace: seq<Event>, verified: map<Token, ObjectId>, e: Event)
    requires HoldsPayloads(d, trace) && OwnPayloads(d, verified)
    requires d.home.None? && t in d.ops && d.ops[t].payload.Some? && e == Returned(t, d.ops[t].payload.value, None)
    ensures HoldsPayloads(PutBack(d, t), trace + [e]) && OwnPayloads(PutBack(d, t), verified)
  {
    HeldAppend(trace, e);
    hide Held;
  }

  /** What must have been proven, in this order, before a payload is unlinked. */
  ghost predicate Proven(d: Disk, t: Token, trace: seq<Event>, record: Manifest, expected: Option<Expected>) {
    && t in d.ops && d.ops[t].payload.Some? && d.ops[t].manifest == Written(record)
    && d.ops[t].payload.value in d.objects
    && var o := d.objects[d.ops[t].payload.value];
    && o.regular && o.ino == record.ino && o.size == record.size
    && (expected.Some? ==> Meets(expected.value, o))
    && |trace| >= 2 && trace[|trace| - 1] == Asked(o.ino, Allowed)
    && trace[|trace| - 2] == Proved(t, d.ops[t].payload.value, 1)
  }

  lemma RemovedIsLawful(d: Disk, t: Token, trace: seq<Event>, verified: map<Token, ObjectId>, record: Manifest,
                        expected: Option<Expected>)
    requires InOrder(d, trace, verified) && Proven(d, t, trace, record, expected)
    ensures var o := d.ops[t].payload.value;
            && t in verified && o == verified[t] && o !in Claimed(trace)
            && LawfulAt(trace + [Removed(t, o, record, expected)], |trace|, d.objects)
  {
    var o := d.ops[t].payload.value;
    PayloadIsAnObject(d, trace, t, verified);
    hide Links, DiskOk, Lawful, Held, Owned, Claimed, ClaimedOnce;
    assert OwnPayload(d, verified, t, record, o);
    var e := Removed(t, o, record, expected);
    assert (trace + [e])[..|trace|] == trace;
  }

  lemma RemovedKeeps(d: Disk, t: Token, trace: seq<Event>, verified: map<Token, ObjectId>, record: Manifest,
                     expected: Option<Expected>)
    requires InOrder(d, trace, verified) && Proven(d, t, trace, record, expected)
    ensures var o := d.ops[t].payload.value;
            && t in verified && o == verified[t] && o !in Claimed(trace)
            && InOrder(Unlinked(d, t), trace + [Removed(t, o, record, expected)], verified)
  {
    RemovedIsLawful(d, t, trace, verified, record, expected);
    var e := Removed(t, d.ops[t].payload.value, record, expected);
    HeldAppend(trace, e);
    hide Links, Lawful, LawfulAt, Held, Owned, Claimed, ClaimedOnce, DiskOk, HoldsPayloads, OwnPayloads, Unlinked;
    LawfulAppend(trace, e, d.objects);
    PlainAppend(trace, e);
    UnlinkedDisk(d, t);
    UnlinkedPayloads(d, t, trace, verified, e);
  }

  lemma UnlinkedDisk(d: Disk, t: Token)
    requires DiskOk(d) && t in d.ops && d.ops[t].payload.Some?
    ensures DiskOk(Unlinked(d, t)) && Unlinked(d, t).objects == d.objects
    ensures forall x :: Links(Unlinked(d, t), x) <= Links(d, x)
  {
    var n := Unlinked(d, t);
    forall x ensures Links(n, x) <= Links(d, x) {
      UnlinkedLinks(d, t, x);
    }
    hide Links;
    FewerLinksOk(d, n);
  }

  lemma UnlinkedPayloads(d: Disk, t: Token, trace: seq<Event>, verified: map<Token, ObjectId>, e: Event)
    requires HoldsPayloads(d, trace) && OwnPayloads(d, verified) && t in d.ops && d.ops[t].payload.Some?
    requires e.Removed? && e.op == t
    ensures HoldsPayloads(Unlinked(d, t), trace + [e]) && OwnPayloads(Unlinked(d, t), verified)
  {
    HeldAppend(trace, e);
    hide Held;
  }

  lemma ReclaimedKeeps(d: Disk, o: ObjectId, trace: seq<Event>, verified: map<Token, ObjectId>)
    requires InOrder(d, trace, verified) && o in d.objects && Links(d, o) == 0 && o !in Claimed(trace)
    requires trace != [] && trace[|trace| - 1].Removed? && trace[|trace| - 1].file == o
    ensures InOrder(d, trace + [Reclaimed(o)], verified)
  {
    var e := Reclaimed(o);
    LawfulAppend(trace, e, d.objects);
    HeldAppend(trace, e);
    ClaimAppend(trace, o);
    hide Held, Owned, Claimed, Lawful, ClaimedOnce, DiskOk, Links;
  }

  lemma ClaimAppend(trace: seq<Event>, o: ObjectId)
    requires ClaimedOnce(trace) && o !in Claimed(trace)
    ensures ClaimedOnce(trace + [Reclaimed(o)]) && Claimed(trace + [Reclaimed(o)]) == Claimed(trace) + {o}
  {
    var n := trace + [Reclaimed(o)];
    forall i, j | 0 <= i < j < |n| && n[i].Reclaimed? && n[j].Reclaimed? ensures n[i].file != n[j].file {
      if j == |trace| {
        assert trace[i].file in Claimed(trace);
      }
    }
    assert n[|trace|].file == o;
    forall x | x in Claimed(trace) ensures x in Claimed(n) {
      var i :| 0 <= i < |trace| && trace[i].Reclaimed? && trace[i].file == x;
      assert n[i].file == x;
    }
  }

  // -- the cleanup --------------------------------------------------------------------------------------------------

  /** What happens before one system call: acts of other processes, then possibly the death of the cleanup, or
      the failure of the call. */
  datatype Tick = Tick(acts: seq<Act>, crash: bool, fault: bool)

  datatype Problem = NoProblem | NotRegular | HardLinked | FileMismatch | Refused(answer: Answer) | Conflict | Unsupported
                   | Unavailable | Leftover | RecoveryRequired | RestoreBlocked | IdentityMismatch | Pending | Substituted
  datatype State = Deleted | Restored | Cleared | Kept
  datatype Removal = Removal(bytes: nat, problem: Problem)
  datatype Settled = Settled(state: State, bytes: nat, problem: Problem)
  datatype Reclamation = Reclamation(bytes: nat, problems: seq<Problem>)
  /** How a call ends: with a value, by an error it does not catch, or with the process. */
  datatype Result<T> = Done(value: T) | Raised | Crashed

  function RecordOf(d: Disk, t: Token): Option<Manifest>
    requires t in d.ops
  {
    if d.ops[t].manifest.Written? then Some(d.ops[t].manifest.record) else None
  }

  /** `_moved_problem`: the moved object is the manifest's own, has no other link, and is what was expected. */
  function MovedProblem(d: Disk, o: ObjectId, record: Manifest, expected: Option<Expected>): Problem
    requires o in d.objects
  {
    var f := d.objects[o];
    if !f.regular || f.ino != record.ino then IdentityMismatch
    else if Links(d, o) != 1 then HardLinked
    else if f.size != record.size then IdentityMismatch
    else if expected.Some? && !Meets(expected.value, f) then IdentityMismatch
    else if expected.Some? && expected.value.sha.Some? && record.sha != expected.value.sha then IdentityMismatch
    else NoProblem
  }

  /** `_identity_problem`. */
  function IdentityProblem(d: Disk, o: ObjectId, expected: Expected): Problem
    requires o in d.objects
  {
    if !d.objects[o].regular then NotRegular
    else if Links(d, o) != 1 then HardLinked
    else if !Meets(expected, d.objects[o]) then FileMismatch
    else NoProblem
  }

  class Cleanup {
    var disk: Disk
    var crashed: bool
    /** Everything that will happen around the next system calls; nothing more happens when it runs out. */
    var script: seq<Tick>
    var answers: seq<Answer>
    var standing: Answer
    ghost var trace: seq<Event>
    ghost var verified: map<Token, ObjectId>

    ghost predicate Valid() reads this {
      InOrder(disk, trace, verified)
    }

    /** What every part of the cleanup leaves true, wherever it stops. */
    twostate predicate Continues() reads this {
      && Valid() && old(trace) <= trace && KeepsObjects(old(disk.objects), disk.objects)
      && (!crashed ==> disk.pinned == old(disk.pinned))
      && standing == old(standing)
    }

    constructor (d: Disk, script: seq<Tick>, answers: seq<Answer>, standing: Answer)
      requires DiskOk(d) && d.ops == map[]
      ensures Valid() && !crashed && disk == d && trace == []
    {
      this.disk, this.script, this.answers, this.standing := d, script, answers, standing;
      crashed, trace, verified := false, [], map[];
    }

    /** Time passes before a system call. */
    method Interrupt() returns (ok: bool)
      requires Valid() && !crashed
      modifies this
      ensures Continues() && trace == old(trace) && verified == old(verified) && answers == old(answers)
      ensures Waited(old(disk), disk) && disk.ops == old(disk.ops)
      ensures Bytes(trace, disk.objects) == Bytes(trace, old(disk.objects))
      ensures old(script) == [] ==> ok && !crashed && disk == old(disk) && script == []
    {
      ok := true;
      if script != [] {
        var tick := script[0];
        script := script[1..];
        ActsKeep(disk, tick.acts);
        ghost var before := disk;
        disk := ActedAll(disk, tick.acts);
        if tick.crash {
          DyingKeeps(disk);
          PinLinks(disk, {});
          disk := disk.(pinned := {});
          crashed := true;
        }
        ok := !tick.fault;
        WaitingKeeps(before, disk, trace, verified);
        BytesKept(trace, before.objects, disk.objects);
      }
    }

    /** The caller's authority is asked about the object. */
    method Ask(ino: nat) returns (answer: Answer)
      requires Valid() && !crashed
      modifies `answers, `trace
      ensures Valid() && trace == old(trace) + [Asked(ino, answer)]
      ensures old(answers) == [] ==> answer == standing && answers == []
      ensures Returns(trace) == Returns(old(trace))
    {
      hide InOrder, Returns;
      answer := standing;
      if answers != [] {
        answer := answers[0];
        answers := answers[1..];
      }
      ReturnsAppend(trace, Asked(ino, answer));
      ObservedKeeps(disk, Asked(ino, answer), trace, verified);
      trace := trace + [Asked(ino, answer)];
    }

    /** `_close`: clear the manifest and the directory of an operation. */
    method CloseOperation(t: Token) returns (problem: Problem)
      requires Valid() && !crashed && t in disk.ops
      modifies this
      ensures Continues() && trace == old(trace) && verified == old(verified) && answers == old(answers)
      ensures Bytes(trace, disk.objects) == Bytes(trace, old(disk.objects))
      ensures OthersKept(old(disk.ops), disk.ops, t)
      ensures !crashed && problem == NoProblem ==> t !in disk.ops
      ensures t in disk.ops ==> disk.ops[t].payload == old(disk.ops)[t].payload
      ensures problem == NoProblem || problem == Leftover || problem == RecoveryRequired
      ensures old(script) == [] ==> !crashed && script == [] && disk == ClosedQuietly(old(disk), t) &&
                                    problem == if old(disk.ops)[t].payload.None? then NoProblem else RecoveryRequired
    {
      hide InOrder, Links, Returns, Waited, Bytes;
      var ok := Interrupt();
      if crashed || !ok { return Leftover; }
      ClearManifest(t);
      ok := Interrupt();
      if crashed || !ok { return Leftover; }
      ok := Interrupt();
      if crashed || !ok { return Leftover; }
      if disk.ops[t].payload.Some? { return RecoveryRequired; }
      RemoveDirectory(t);
      ok := Interrupt();
      problem := if crashed || !ok then Leftover else NoProblem;
    }

    method ClearManifest(t: Token)
      requires Valid() && t in disk.ops
      modifies `disk
      ensures Valid() && disk == old(disk).(ops := old(disk.ops)[t := old(disk.ops)[t].(manifest := NoManifest)])
    {
      ghost var before := disk;
      disk := disk.(ops := disk.ops[t := disk.ops[t].(manifest := NoManifest)]);
      SamePayloadsKeep(before, disk, trace, verified);
    }

    method RemoveDirectory(t: Token)
      requires Valid() && t in disk.ops && disk.ops[t] == Operation(NoManifest, None)
      modifies `disk
      ensures Valid() && disk == old(disk).(ops := old(disk.ops) - {t})
    {
      ghost var before := disk;
      disk := disk.(ops := disk.ops - {t});
      SamePayloadsKeep(before, disk, trace, verified);
    }

    /** `_conclude`: nothing is held; the bytes, if any went, were counted by the run that removed them. */
    method Conclude(t: Token) returns (r: Result<Settled>)
      requires Valid() && !crashed && t in disk.ops && disk.ops[t].payload.None?
      modifies this
      ensures Continues() && trace == old(trace) && verified == old(verified) && answers == old(answers)
      ensures Bytes(trace, disk.objects) == Bytes(trace, old(disk.objects))
      ensures OthersKept(old(disk.ops), disk.ops, t)
      ensures (r.Crashed? <==> crashed) && !r.Raised?
      ensures r.Done? ==> r.value.bytes == 0 && ((r.value.state.Cleared? && t !in disk.ops) || r.value.state.Kept?)
      ensures r.Done? ==> Reports(old(trace), trace, r.value)
      ensures old(script) == [] ==> script == [] && r == Done(Settled(Cleared, 0, NoProblem)) &&
                                    disk == ClosedQuietly(old(disk), t)
    {
      var leftover := CloseOperation(t);
      if crashed { return Crashed; }
      r := Done(if leftover == NoProblem then Settled(Cleared, 0, NoProblem) else Settled(Kept, 0, leftover));
    }

    method ReturnPayload(t: Token)
      requires Valid() && disk.home.None? && t in disk.ops && disk.ops[t].payload.Some?
      modifies `disk, `trace
      ensures Valid() && disk == PutBack(old(disk), t) &&
              trace == old(trace) + [Returned(t, old(disk.ops)[t].payload.value, old(disk.home))]
      ensures Bytes(trace, disk.objects) == Bytes(old(trace), old(disk.objects))
      ensures Returns(trace) == Returns(old(trace)) + 1
    {
      ReturnedKeeps(disk, t, trace, verified);
      hide InOrder, Links, Returns;
      ghost var e := Returned(t, disk.ops[t].payload.value, disk.home);
      BytesAppend(trace, e, disk.objects);
      ReturnsAppend(trace, e);
      trace := trace + [e];
      disk := PutBack(disk, t);
    }

    /** `_restore`: put a payload that may not be deleted back under its name, only if the name is free at that moment,
        whatever else happens; or keep it where it is. */
    method Restore(t: Token, reason: Problem) returns (r: Result<Settled>)
      requires Valid() && !crashed && t in disk.ops && disk.ops[t].payload.Some? && reason != NoProblem
      modifies this
      ensures Continues() && verified == old(verified) && answers == old(answers)
      ensures OthersKept(old(disk.ops), disk.ops, t)
      ensures r.Crashed? <==> crashed
      ensures trace == old(trace) || trace == old(trace) + [Returned(t, old(disk.ops)[t].payload.value, None)]
      ensures trace == old(trace) && t in disk.ops ==> disk.ops[t].payload == old(disk.ops)[t].payload
      ensures trace != old(trace) && t in disk.ops ==> disk.ops[t].payload.None?
      ensures Bytes(trace, disk.objects) == Bytes(old(trace), old(disk.objects))
      ensures r.Done? ==> r.value.bytes == 0
      ensures r.Done? ==> (r.value.state.Restored? <==> trace != old(trace)) && (r.value.state.Restored? || r.value.state.Kept?)
      ensures r.Done? ==> Reports(old(trace), trace, r.value)
      ensures Returns(old(trace)) <= Returns(trace) <= Returns(old(trace)) + 1
      ensures r.Done? ==> r.value.problem in {reason, Leftover, RecoveryRequired, RestoreBlocked}
      ensures old(script) == [] ==> script == [] && r == Done(RestoredQuietly(old(disk), t, reason).1) &&
                                    disk == RestoredQuietly(old(disk), t, reason).0
    {
      hide InOrder, Links, Returns, Waited, Bytes, PutBack, ClosedQuietly;
      var ok := Interrupt();
      if crashed { return Crashed; }
      if !ok { return Done(Settled(Kept, 0, RecoveryRequired)); }
      if disk.home.Some? { return Done(Settled(Kept, 0, RestoreBlocked)); }
      PutBackOthers(disk, t);
      ReturnPayload(t);
      r := FinishRestoring(t, reason);
    }

    /** The payload is back: its operation is cleared. */
    method FinishRestoring(t: Token, reason: Problem) returns (r: Result<Settled>)
      requires Valid() && !crashed && t in disk.ops && disk.ops[t].payload.None? && reason != NoProblem
      modifies this
      ensures Continues() && trace == old(trace) && verified == old(verified) && answers == old(answers)
      ensures Bytes(trace, disk.objects) == Bytes(trace, old(disk.objects))
      ensures OthersKept(old(disk.ops), disk.ops, t) && Emptied(disk.ops, t)
      ensures r.Crashed? <==> crashed
      ensures r.Done? ==> r.value.state.Restored? && r.value.bytes == 0
      ensures r.Done? ==> r.value.problem == reason || r.value.problem == Leftover || r.value.problem == RecoveryRequired
      ensures old(script) == [] ==> script == [] && r == Done(Settled(Restored, 0, reason)) &&
                                    disk == ClosedQuietly(old(disk), t)
    {
      hide InOrder, Links, Returns, Waited, Bytes, ClosedQuietly;
      var ok := Interrupt();
      if crashed { return Crashed; }
      if !ok { return Raised; }
      ok := Interrupt();
      if crashed { return Crashed; }
      if !ok { return Raised; }
      var leftover := CloseOperation(t);
      if crashed { return Crashed; }
      r := Done(Settled(Restored, 0, if leftover == NoProblem then reason else leftover));
    }

    method UnlinkPayload(t: Token, record: Manifest, expected: Option<Expected>)
      requires Valid() && Proven(disk, t, trace, record, expected)
      modifies `disk, `trace
      ensures Valid() && disk == Unlinked(old(disk), t)
      ensures var o := old(disk.ops)[t].payload.value;
              && trace == old(trace) + [Removed(t, o, record, expected)] && o !in Claimed(trace)
              && Links(disk, o) == Links(old(disk), o) - 1
      ensures Bytes(trace, disk.objects) == Bytes(old(trace), old(disk.objects))
      ensures Returns(trace) == Returns(old(trace))
    {
      ghost var o := disk.ops[t].payload.value;
      RemovedKeeps(disk, t, trace, verified, record, expected);
      UnlinkedLinks(disk, t, o);
      hide InOrder, Links, Proven, Claimed;
      ghost var e := Removed(t, o, record, expected);
      BytesAppend(trace, e, disk.objects);
      ReturnsAppend(trace, e);
      PlainAppend(trace, e);
      trace := trace + [e];
      disk := Unlinked(disk, t);
    }

    method ClaimBytes(o: ObjectId) returns (size: nat)
      requires Valid() && o in disk.objects && Links(disk, o) == 0 && o !in Claimed(trace)
      requires trace != [] && trace[|trace| - 1].Removed? && trace[|trace| - 1].file == o
      modifies `trace
      ensures Valid() && trace == old(trace) + [Reclaimed(o)] && size == Size(disk.objects, o)
      ensures Bytes(trace, disk.objects) == Bytes(old(trace), disk.objects) + size
      ensures Returns(trace) == Returns(old(trace))
    {
      ReclaimedKeeps(disk, o, trace, verified);
      BytesAppend(trace, Reclaimed(o), disk.objects);
      ReturnsAppend(trace, Reclaimed(o));
      trace := trace + [Reclaimed(o)];
      size := disk.objects[o].size;
    }

    /** The end of `_settle`: the authorized payload is unlinked, and its bytes are claimed only once the held
        descriptor shows no link left. */
    method Delete(t: Token, record: Manifest, expected: Option<Expected>) returns (r: Result<Settled>)
      requires Valid() && !crashed && Proven(disk, t, trace, record, expected)
      modifies this
      ensures Continues() && verified == old(verified) && answers == old(answers)
      ensures OthersKept(old(disk.ops), disk.ops, t) && NothingStarted(old(trace), trace)
      ensures r.Crashed? <==> crashed
      ensures Bytes(trace, disk.objects) >= Bytes(old(trace), old(disk.objects))
      ensures r.Done? ==> Bytes(trace, disk.objects) == Bytes(old(trace), old(disk.objects)) + r.value.bytes
      ensures r.Raised? ==> Bytes(trace, disk.objects) == Bytes(old(trace), old(disk.objects))
      ensures r.Done? ==> Emptied(disk.ops, t) && (r.value.state.Deleted? || r.value == Settled(Kept, 0, Substituted))
      ensures r.Done? && r.value.state.Deleted? ==> r.value.bytes == old(Size(disk.objects, disk.ops[t].payload.value))
      ensures r.Done? ==> Reports(old(trace), trace, r.value)
      ensures r.Done? && r.value.state.Deleted? ==> Reclaims(trace, old(disk.ops)[t].payload.value)
      ensures Returns(trace) == Returns(old(trace))
      ensures old(script) == [] && Links(old(disk), old(disk.ops)[t].payload.value) == 1 ==>
                script == [] && r == Done(DeletedQuietly(old(disk), t).1) && disk == DeletedQuietly(old(disk), t).0
    {
      NothingStartedYet(trace);
      assert disk.ops[t].payload.value in disk.objects;
      hide InOrder, Links, Returns, Bytes, Claimed, NothingStarted;
      var ok := Interrupt();
      if crashed { return Crashed; }
      if !ok { return Raised; }
      assert Proven(disk, t, trace, record, expected);
      hide Proven, Waited, Unlinked, ClosedQuietly, Size;
      r := DeleteNow(t, record, expected);
    }

    method DeleteNow(t: Token, record: Manifest, expected: Option<Expected>) returns (r: Result<Settled>)
      requires Valid() && !crashed && Proven(disk, t, trace, record, expected)
      modifies this
      ensures Continues() && verified == old(verified) && answers == old(answers)
      ensures OthersKept(old(disk.ops), disk.ops, t) && NothingStarted(old(trace), trace)
      ensures (r.Crashed? <==> crashed) && !r.Raised?
      ensures Bytes(trace, disk.objects) >= Bytes(old(trace), old(disk.objects))
      ensures r.Done? ==> Bytes(trace, disk.objects) == Bytes(old(trace), old(disk.objects)) + r.value.bytes
      ensures r.Done? ==> Emptied(disk.ops, t) && (r.value.state.Deleted? || r.value == Settled(Kept, 0, Substituted))
      ensures r.Done? && r.value.state.Deleted? ==> r.value.bytes == old(Size(disk.objects, disk.ops[t].payload.value))
      ensures r.Done? ==> Reports(old(trace), trace, r.value)
      ensures r.Done? && r.value.state.Deleted? ==> Reclaims(trace, old(disk.ops)[t].payload.value)
      ensures Returns(trace) == Returns(old(trace))
      ensures old(script) == [] && Links(old(disk), old(disk.ops)[t].payload.value) == 1 ==>
                script == [] && r == Done(DeletedQuietly(old(disk), t).1) && disk == DeletedQuietly(old(disk), t).0
    {
      hide InOrder, Links, Returns, Bytes, Claimed, NothingStarted, Unlinked, ClosedQuietly;
      assert disk.ops[t].payload.value in disk.objects;
      hide Proven;
      var size := UnlinkProven(t, record, expected);
      if crashed { return Crashed; }
      if size.None? { return Done(Settled(Kept, 0, Substituted)); }
      r := FinishDeletion(t, size.value);
    }

    /** The bytes are counted: from here nothing may lose them. */
    method FinishDeletion(t: Token, size: nat) returns (r: Result<Settled>)
      requires Valid() && !crashed && t in disk.ops && disk.ops[t].payload.None?
      modifies this
      ensures Continues() && trace == old(trace) && verified == old(verified) && answers == old(answers)
      ensures Bytes(trace, disk.objects) == Bytes(trace, old(disk.objects))
      ensures OthersKept(old(disk.ops), disk.ops, t) && Emptied(disk.ops, t)
      ensures (r.Crashed? <==> crashed) && !r.Raised?
      ensures r.Done? ==> r.value.state.Deleted? && r.value.bytes == size
      ensures r.Done? ==> Reports(old(trace), trace, r.value)
      ensures old(script) == [] ==> script == [] && r == Done(Settled(Deleted, size, NoProblem)) &&
                                    disk == ClosedQuietly(old(disk), t)
    {
      hide InOrder, Links, Returns, Bytes, Waited;
      var _ := Interrupt();
      if crashed { return Crashed; }
      var leftover := CloseOperation(t);
      if crashed { return Crashed; }
      r := Done(Settled(Deleted, size, leftover));
    }

    /** The unlink, and the look at what the held descriptor says of it: its bytes, if no link is left. */
    method UnlinkProven(t: Token, record: Manifest, expected: Option<Expected>) returns (size: Option<nat>)
      requires Valid() && !crashed && Proven(disk, t, trace, record, expected)
      modifies this
      ensures Continues() && verified == old(verified) && answers == old(answers)
      ensures var o := old(disk.ops)[t].payload.value;
              trace == old(trace) + if size.Some? then [Removed(t, o, record, expected), Reclaimed(o)]
                                    else [Removed(t, o, record, expected)]
      ensures NothingStarted(old(trace), trace)
      ensures disk.ops == Unlinked(old(disk), t).ops && OthersKept(old(disk.ops), disk.ops, t)
      ensures t in disk.ops && disk.ops[t].payload.None?
      ensures Bytes(trace, disk.objects) == Bytes(old(trace), old(disk.objects)) + size.GetOr(0)
      ensures size.Some? ==> !crashed && size.value == old(Size(disk.objects, disk.ops[t].payload.value))
      ensures Returns(trace) == Returns(old(trace))
      ensures old(script) == [] && Links(old(disk), old(disk.ops)[t].payload.value) == 1 ==>
                script == [] && !crashed && size.Some? && disk == Unlinked(old(disk), t)
    {
      var o := disk.ops[t].payload.value;
      assert o in disk.objects;
      UnlinkStartsNothing(trace, Removed(t, o, record, expected), Reclaimed(o));
      UnlinkedOthers(disk, t);
      hide InOrder, Links, Returns, Bytes, Claimed, Proven, NothingStarted, Waited, Unlinked;
      UnlinkPayload(t, record, expected);
      var _ := Interrupt();
      if crashed || LinkCount(o) != 0 { return None; }
      var bytes := ClaimBytes(o);
      size := Some(bytes);
    }

    method Pin(o: ObjectId)
      requires Valid() && o in disk.objects && Links(disk, o) > 0
      modifies `disk
      ensures Valid() && disk == old(disk).(pinned := old(disk.pinned) + {o})
    {
      PinningKeeps(disk, o, trace, verified);
      disk := disk.(pinned := disk.pinned + {o});
    }

    method Unpin(pinned: set<ObjectId>)
      requires Valid() && pinned <= disk.pinned
      modifies `disk
      ensures Valid() && disk == old(disk).(pinned := pinned)
    {
      UnpinningKeeps(disk, pinned, trace, verified);
      disk := disk.(pinned := pinned);
    }

    /** The open payload is checked against the manifest and what is expected; a proof records the links it had. */
    method Examine(t: Token, record: Manifest, expected: Option<Expected>) returns (reason: Problem)
      requires Valid() && t in disk.ops && disk.ops[t].payload.Some? && disk.ops[t].payload.value in disk.objects
      modifies `trace
      ensures Valid() && reason == MovedProblem(disk, disk.ops[t].payload.value, record, expected)
      ensures var o := disk.ops[t].payload.value;
              trace == old(trace) + if reason == NoProblem then [Proved(t, o, Links(disk, o))] else []
      ensures Bytes(trace, disk.objects) == Bytes(old(trace), disk.objects)
      ensures Returns(trace) == Returns(old(trace))
    {
      var o := disk.ops[t].payload.value;
      reason := MovedProblem(disk, o, record, expected);
      if reason == NoProblem {
        ghost var e := Proved(t, o, Links(disk, o));
        ProvedIsLawful(disk, t, trace, verified);
        ObservedKeeps(disk, e, trace, verified);
        BytesAppend(trace, e, disk.objects);
        ReturnsAppend(trace, e);
        trace := trace + [e];
      }
    }

    /** `_settle` once the payload is open. */
    method SettlePayload(t: Token, record: Manifest, expected: Option<Expected>) returns (r: Result<Settled>)
      requires Valid() && !crashed && t in disk.ops && disk.ops[t].payload.Some? && disk.ops[t].manifest == Written(record)
      requires disk.ops[t].payload.value in disk.objects
      modifies this
      ensures Continues() && OthersKept(old(disk.ops), disk.ops, t)
      ensures r.Crashed? <==> crashed
      ensures Bytes(trace, disk.objects) >= Bytes(old(trace), old(disk.objects))
      ensures r.Done? ==> Bytes(trace, disk.objects) == Bytes(old(trace), old(disk.objects)) + r.value.bytes
      ensures r.Raised? ==> Bytes(trace, disk.objects) == Bytes(old(trace), old(disk.objects))
      ensures NothingStarted(old(trace), trace)
      ensures r.Done? && !r.value.state.Kept? ==> Emptied(disk.ops, t)
      ensures r.Done? ==> Reports(old(trace), trace, r.value)
      ensures r.Done? && r.value.state.Deleted? ==> Reclaims(trace, old(disk.ops)[t].payload.value)
      ensures r.Done? ==> !r.value.state.Cleared?
      ensures Returns(old(trace)) <= Returns(trace) <= Returns(old(trace)) + 1
      ensures r.Done? && old(disk.objects[disk.ops[t].payload.value].ino) != record.ino ==> SaysForeign(r.value.problem)
      ensures old(script) == [] && old(answers) == [] ==>
                script == [] && answers == [] &&
                r == Done(PayloadSettledQuietly(old(disk), t, record, expected, standing).1) &&
                disk == PayloadSettledQuietly(old(disk), t, record, expected, standing).0
    {
      hide InOrder, Links, Returns, Bytes, Waited, Claimed;
      var o := disk.ops[t].payload.value;
      var reason := Examine(t, record, expected);
      if reason != NoProblem {
        r := Restore(t, reason);
        return;
      }
      r := SettleProven(t, record, expected);
    }

    /** `_settle` once the payload is proven: the authority's last word decides. */
    method SettleProven(t: Token, record: Manifest, expected: Option<Expected>) returns (r: Result<Settled>)
      requires Valid() && !crashed && t in disk.ops && disk.ops[t].payload.Some? && disk.ops[t].manifest == Written(record)
      requires var o := disk.ops[t].payload.value;
               && o in disk.objects && disk.objects[o].regular && disk.objects[o].ino == record.ino
               && disk.objects[o].size == record.size && (expected.Some? ==> Meets(expected.value, disk.objects[o]))
               && trace != [] && trace[|trace| - 1] == Proved(t, o, 1)
      modifies this
      ensures Continues() && OthersKept(old(disk.ops), disk.ops, t)
      ensures r.Crashed? <==> crashed
      ensures Bytes(trace, disk.objects) >= Bytes(old(trace), old(disk.objects))
      ensures r.Done? ==> Bytes(trace, disk.objects) == Bytes(old(trace), old(disk.objects)) + r.value.bytes
      ensures r.Raised? ==> Bytes(trace, disk.objects) == Bytes(old(trace), old(disk.objects))
      ensures NothingStarted(old(trace), trace)
      ensures r.Done? && !r.value.state.Kept? ==> Emptied(disk.ops, t)
      ensures r.Done? ==> Reports(old(trace), trace, r.value)
      ensures r.Done? && r.value.state.Deleted? ==> Reclaims(trace, old(disk.ops)[t].payload.value)
      ensures r.Done? ==> !r.value.state.Cleared?
      ensures Returns(old(trace)) <= Returns(trace) <= Returns(old(trace)) + 1
      ensures old(script) == [] && old(answers) == [] && Links(old(disk), old(disk.ops)[t].payload.value) == 1 ==>
                script == [] && answers == [] && r == Done(AnsweredQuietly(old(disk), t, standing).1) &&
                disk == AnsweredQuietly(old(disk), t, standing).0
    {
      hide InOrder, Links, Returns, Bytes, Claimed, Waited, RestoredQuietly, DeletedQuietly;
      var _ := Interrupt();
      if crashed { return Crashed; }
      r := SettleAnswered(t, record, expected);
    }

    /** What the answer makes of it. */
    method SettleAnswered(t: Token, record: Manifest, expected: Option<Expected>) returns (r: Result<Settled>)
      requires Valid() && !crashed && t in disk.ops && disk.ops[t].payload.Some? && disk.ops[t].manifest == Written(record)
      requires var o := disk.ops[t].payload.value;
               && o in disk.objects && disk.objects[o].regular && disk.objects[o].ino == record.ino
               && disk.objects[o].size == record.size && (expected.Some? ==> Meets(expected.value, disk.objects[o]))
               && trace != [] && trace[|trace| - 1] == Proved(t, o, 1)
      modifies this
      ensures Continues() && OthersKept(old(disk.ops), disk.ops, t)
      ensures r.Crashed? <==> crashed
      ensures Bytes(trace, disk.objects) >= Bytes(old(trace), old(disk.objects))
      ensures r.Done? ==> Bytes(trace, disk.objects) == Bytes(old(trace), old(disk.objects)) + r.value.bytes
      ensures r.Raised? ==> Bytes(trace, disk.objects) == Bytes(old(trace), old(disk.objects))
      ensures NothingStarted(old(trace), trace)
      ensures r.Done? && !r.value.state.Kept? ==> Emptied(disk.ops, t)
      ensures r.Done? ==> Reports(old(trace), trace, r.value)
      ensures r.Done? && r.value.state.Deleted? ==> Reclaims(trace, old(disk.ops)[t].payload.value)
      ensures r.Done? ==> !r.value.state.Cleared?
      ensures Returns(old(trace)) <= Returns(trace) <= Returns(old(trace)) + 1
      ensures old(script) == [] && old(answers) == [] && Links(old(disk), old(disk.ops)[t].payload.value) == 1 ==>
                script == [] && answers == [] && r == Done(AnsweredQuietly(old(disk), t, standing).1) &&
                disk == AnsweredQuietly(old(disk), t, standing).0
    {
      hide InOrder, Links, Returns, Bytes, Claimed, RestoredQuietly, DeletedQuietly;
      var o := disk.ops[t].payload.value;
      ghost var proved := trace;
      var answer := Ask(disk.objects[o].ino);
      BytesAppend(proved, Asked(disk.objects[o].ino, answer), disk.objects);
      if answer == Unknown { return Done(Settled(Kept, 0, Pending)); }
      if answer == Denied {
        r := Restore(t, Refused(answer));
        return;
      }
      r := Delete(t, record, expected);
    }

    /** `_settle`: delete a proven payload, put back anything else (never over an occupant), or clear an operation
        that holds nothing. */
    method Settle(t: Token, record: Option<Manifest>, expected: Option<Expected>) returns (r: Result<Settled>)
      requires Valid() && !crashed
      requires t in disk.ops && record.Some? ==> disk.ops[t].manifest == Written(record.value)
      modifies this
      ensures Continues() && OthersKept(old(disk.ops), disk.ops, t)
      ensures r.Crashed? <==> crashed
      ensures Bytes(trace, disk.objects) >= Bytes(old(trace), old(disk.objects))
      ensures r.Done? ==> Bytes(trace, disk.objects) == Bytes(old(trace), old(disk.objects)) + r.value.bytes
      ensures r.Raised? ==> Bytes(trace, disk.objects) == Bytes(old(trace), old(disk.objects))
      ensures NothingStarted(old(trace), trace)
      ensures r.Done? && !r.value.state.Kept? ==> Emptied(disk.ops, t)
      ensures r.Done? ==> Reports(old(trace), trace, r.value)
      ensures r.Done? && t in old(disk.ops) && old(disk.ops)[t].payload.Some? ==>
                !r.value.state.Cleared? &&
                (r.value.state.Deleted? ==> Reclaims(trace, old(disk.ops)[t].payload.value))
      ensures Returns(old(trace)) <= Returns(trace) <= Returns(old(trace)) + 1
      ensures r.Done? && record.Some? && t in old(disk.ops) && Foreign(old(disk), t, record.value) ==> SaysForeign(r.value.problem)
      ensures old(script) == [] && old(answers) == [] ==>
                script == [] && answers == [] &&
                r == Done(SettledQuietly(old(disk), t, record, expected, standing).1) &&
                disk == SettledQuietly(old(disk), t, record, expected, standing).0
    {
      hide InOrder, Links, Returns, Bytes, Waited, Claimed;
      var ok := Interrupt();
      if crashed { return Crashed; }
      if t !in disk.ops { return Done(Settled(Cleared, 0, NoProblem)); }
      if !ok { return Done(Settled(Kept, 0, Unavailable)); }
      ok := Interrupt();
      if crashed { return Crashed; }
      if !ok { return Done(Settled(Kept, 0, RecoveryRequired)); }
      if disk.ops[t].payload.None? {
        r := Conclude(t);
        return;
      }
      var o := disk.ops[t].payload.value;
      PayloadIsAnObject(disk, trace, t, verified);
      if record.None? || !disk.objects[o].regular { return Done(Settled(Kept, 0, RecoveryRequired)); }
      r := SettleOpened(t, record.value, expected);
    }

    /** The payload is held open while it is proven and settled. */
    method SettleOpened(t: Token, record: Manifest, expected: Option<Expected>) returns (r: Result<Settled>)
      requires Valid() && !crashed && t in disk.ops && disk.ops[t].payload.Some? && disk.ops[t].manifest == Written(record)
      requires disk.ops[t].payload.value in disk.objects && Links(disk, disk.ops[t].payload.value) > 0
      modifies this
      ensures Continues() && OthersKept(old(disk.ops), disk.ops, t)
      ensures r.Crashed? <==> crashed
      ensures Bytes(trace, disk.objects) >= Bytes(old(trace), old(disk.objects))
      ensures r.Done? ==> Bytes(trace, disk.objects) == Bytes(old(trace), old(disk.objects)) + r.value.bytes
      ensures r.Raised? ==> Bytes(trace, disk.objects) == Bytes(old(trace), old(disk.objects))
      ensures NothingStarted(old(trace), trace)
      ensures r.Done? && !r.value.state.Kept? ==> Emptied(disk.ops, t)
      ensures r.Done? ==> Reports(old(trace), trace, r.value)
      ensures r.Done? && r.value.state.Deleted? ==> Reclaims(trace, old(disk.ops)[t].payload.value)
      ensures r.Done? ==> !r.value.state.Cleared?
      ensures Returns(old(trace)) <= Returns(trace) <= Returns(old(trace)) + 1
      ensures r.Done? && old(disk.objects[disk.ops[t].payload.value].ino) != record.ino ==> SaysForeign(r.value.problem)
      ensures old(script) == [] && old(answers) == [] ==>
                script == [] && answers == [] &&
                r == Done(PayloadSettledQuietly(old(disk), t, record, expected, standing).1) &&
                disk == PayloadSettledQuietly(old(disk), t, record, expected, standing).0
    {
      hide InOrder, Links, Returns, Bytes, Waited, Claimed, PayloadSettledQuietly;
      var o, pinned := disk.ops[t].payload.value, disk.pinned;
      ghost var before := disk;
      Pin(o);
      PinLinks(before, pinned + {o});
      r := SettlePayload(t, record, expected);
      if !crashed {
        Unpin(pinned);
        PinnedSettles(before, pinned + {o}, t, record, expected, standing);
      }
    }

    /** The name's operations, in order, among the first MAX_OPERATIONS entries: `ahead` of them come before its own. */
    method List(ahead: nat) returns (found: seq<Token>)
      ensures found == Listed(disk.ops.Keys, ahead)
    {
      found := [];
      var rest := disk.ops.Keys;
      var reading: seq<Token> := [];
      while rest != {}
        invariant rest <= disk.ops.Keys
        invariant multiset(reading) + multiset(rest) == multiset(disk.ops.Keys)
        decreases |rest|
      {
        var t :| t in rest;
        MultisetWithout(t, rest);
        rest, reading := rest - {t}, reading + [t];
      }
      AnyReadingSortsAlike(disk.ops.Keys, reading, TokenOrder);
      found := FirstListed(SortBy(reading, TokenOrder), ahead);
    }

    /** `recover`: settle every interrupted operation listed, one after another; it moves nothing aside. */
    method Recover(expected: Option<Expected>, ahead: nat) returns (r: Result<seq<Settled>>)
      requires Valid() && !crashed
      modifies this
      ensures Continues()
      ensures r.Crashed? <==> crashed
      ensures Bytes(trace, disk.objects) >= Bytes(old(trace), old(disk.objects))
      ensures r.Done? ==> Bytes(trace, disk.objects) == Bytes(old(trace), old(disk.objects)) + TotalBytes(r.value)
      ensures NothingStarted(old(trace), trace)
      ensures r.Done? && !Unresolved(r.value) ==>
                forall t :: t in Listed(old(disk.ops.Keys), ahead) ==> Emptied(disk.ops, t)
      ensures disk.ops.Keys <= old(disk.ops.Keys)
      ensures r.Done? ==> AllReported(old(trace), trace, r.value)
      ensures old(script) == [] && old(answers) == [] ==>
                script == [] && answers == [] &&
                r == Done(RecoveredQuietly(old(disk), Listed(old(disk.ops.Keys), ahead), expected, standing).1) &&
                disk == RecoveredQuietly(old(disk), Listed(old(disk.ops.Keys), ahead), expected, standing).0
    {
      hide InOrder, Links, Returns, Bytes, Waited, Claimed, Listed, SettledQuietly, AllReported, Reports;
      var ok := Interrupt();
      if crashed { return Crashed; }
      NoneReported(trace);
      if !ok { return Done([Settled(Kept, 0, Unavailable)]); }
      var found := List(ahead);
      var results: seq<Settled> := [];
      for i := 0 to |found|
        invariant Continues() && !crashed && NothingStarted(old(trace), trace)
        invariant Bytes(trace, disk.objects) == Bytes(old(trace), old(disk.objects)) + TotalBytes(results)
        invariant disk.ops.Keys <= old(disk.ops.Keys) && AllReported(old(trace), trace, results)
        invariant !Unresolved(results) ==> forall k :: 0 <= k < i ==> Emptied(disk.ops, found[k])
        invariant old(script) == [] && old(answers) == [] ==>
                    script == [] && answers == [] &&
                    (disk, results) == RecoveredQuietly(old(disk), found[..i], expected, standing)
      {
        assert found[..i + 1][..i] == found[..i];
        ghost var was, seen := results, trace;
        var one := RecoverOne(found[i], expected);
        if one.Crashed? { return Crashed; }
        if one.Raised? { return Raised; }
        if one.value.Some? {
          assert (results + [one.value.value])[..|results|] == results;
          results := results + [one.value.value];
          UnresolvedAppend(was, one.value.value);
          ReportedAppend(old(trace), seen, trace, was, one.value.value);
        }
      }
      assert found[..|found|] == found;
      r := Done(results);
    }

    /** One turn of `recover`: an operation that is gone is skipped, one whose directory cannot be opened is kept. */
    method RecoverOne(t: Token, expected: Option<Expected>) returns (r: Result<Option<Settled>>)
      requires Valid() && !crashed
      modifies this
      ensures Continues()
      ensures r.Crashed? <==> crashed
      ensures Bytes(trace, disk.objects) >= Bytes(old(trace), old(disk.objects))
      ensures r.Done? ==> Bytes(trace, disk.objects) == Bytes(old(trace), old(disk.objects)) + BytesOf(r.value)
      ensures NothingStarted(old(trace), trace) && OthersKept(old(disk.ops), disk.ops, t)
      ensures disk.ops.Keys <= old(disk.ops.Keys)
      ensures r.Done? && (r.value.None? || !r.value.value.state.Kept?) ==> Emptied(disk.ops, t)
      ensures r.Done? ==> if r.value.None? then trace == old(trace) else Reports(old(trace), trace, r.value.value)
      ensures old(script) == [] && old(answers) == [] ==>
                script == [] && answers == [] && r.Done? &&
                if t !in old(disk.ops) then r.value.None? && disk == old(disk)
                else (disk, r.value) == (var q := SettledQuietly(old(disk), t, RecordOf(old(disk), t), expected, standing);
                                         (q.0, Some(q.1)))
    {
      hide InOrder, Links, Returns, Bytes, Waited, Claimed, SettledQuietly;
      var ok := Interrupt();
      if crashed { return Crashed; }
      if t !in disk.ops { return Done(None); }
      if !ok { return Done(Some(Settled(Kept, 0, Unavailable))); }
      ok := Interrupt();
      if crashed { return Crashed; }
      var record := if ok then RecordOf(disk, t) else None;
      var _ := Interrupt();
      if crashed { return Crashed; }
      var one := Settle(t, record, expected);
      if one.Crashed? { return Crashed; }
      if one.Raised? { return Raised; }
      r := Done(Some(one.value));
    }

    /** `_write_manifest`: made, then filled; a crash in between leaves it torn. */
    method WriteManifest(t: Token, record: Manifest, o: ObjectId) returns (ok: bool)
      requires Valid() && !crashed && t in disk.ops && disk.ops[t] == Operation(NoManifest, None)
      requires o in disk.objects && disk.objects[o].ino == record.ino && disk.objects[o].size == record.size
      requires trace != [] && trace[|trace| - 1] == Inspected(o, 1)
      modifies this
      ensures Continues() && answers == old(answers)
      ensures trace == old(trace) || trace == old(trace) + [Recorded(t, o, record)]
      ensures Bytes(trace, disk.objects) == Bytes(old(trace), old(disk.objects))
      ensures t in disk.ops && disk.ops[t].payload.None?
      ensures ok && !crashed ==> disk.ops[t].manifest == Written(record) && t in verified && verified[t] == o &&
                                 trace == old(trace) + [Recorded(t, o, record)]
      ensures Returns(trace) == Returns(old(trace))
      ensures old(script) == [] ==>
                ok && !crashed && script == [] &&
                disk == old(disk).(ops := old(disk.ops)[t := Operation(Written(record), None)])
    {
      hide InOrder, Links, Returns, Bytes, Waited;
      ok := Interrupt();
      if crashed || !ok { return; }
      TearManifest(t);
      ok := Interrupt();
      if crashed || !ok { return; }
      RecordManifest(t, record, o);
      ok := Interrupt();
    }

    method TearManifest(t: Token)
      requires Valid() && t in disk.ops && disk.ops[t].payload.None?
      modifies `disk
      ensures Valid() && disk == old(disk).(ops := old(disk.ops)[t := Operation(Torn, None)])
    {
      ghost var before := disk;
      disk := disk.(ops := disk.ops[t := Operation(Torn, None)]);
      SamePayloadsKeep(before, disk, trace, verified);
    }

    method RecordManifest(t: Token, record: Manifest, o: ObjectId)
      requires Valid() && t in disk.ops && disk.ops[t].payload.None?
      requires o in disk.objects && disk.objects[o].ino == record.ino && disk.objects[o].size == record.size
      requires trace != [] && trace[|trace| - 1] == Inspected(o, 1)
      modifies `disk, `verified, `trace
      ensures Valid() && disk == old(disk).(ops := old(disk.ops)[t := Operation(Written(record), None)])
      ensures verified == old(verified)[t := o] && trace == old(trace) + [Recorded(t, o, record)]
      ensures Bytes(trace, disk.objects) == Bytes(old(trace), old(disk.objects))
      ensures Returns(trace) == Returns(old(trace))
    {
      RecordedKeeps(disk, t, o, record, trace, verified);
      hide InOrder;
      BytesAppend(trace, Recorded(t, o, record), disk.objects);
      ReturnsAppend(trace, Recorded(t, o, record));
      disk := disk.(ops := disk.ops[t := Operation(Written(record), None)]);
      verified, trace := verified[t := o], trace + [Recorded(t, o, record)];
    }

    method MakeDirectory(t: Token)
      requires Valid() && t !in disk.ops
      modifies `disk
      ensures Valid() && disk == old(disk).(ops := old(disk.ops)[t := Operation(NoManifest, None)])
    {
      ghost var before := disk;
      disk := disk.(ops := disk.ops[t := Operation(NoManifest, None)]);
      SamePayloadsKeep(before, disk, trace, verified);
    }

    /** The rename that moves whatever the name denotes now into the operation. */
    method MoveIn(t: Token, o: ObjectId, record: Manifest)
      requires Valid() && t in disk.ops && disk.ops[t] == Operation(Written(record), None) && disk.home.Some?
      requires o in disk.pinned && o in disk.objects && t in verified && verified[t] == o
      requires disk.objects[o].ino == record.ino && disk.objects[o].size == record.size && disk.objects[o].regular
      requires trace != [] && trace[|trace| - 1] == Recorded(t, o, record)
      modifies `disk, `trace
      ensures Valid() && disk == MovedIn(old(disk), t) && trace == old(trace) + [Moved(t, old(disk.home).value)]
      ensures Bytes(trace, disk.objects) == Bytes(old(trace), old(disk.objects))
      ensures Returns(trace) == Returns(old(trace))
    {
      OnlyItsOwn(disk, t, o, record, verified);
      MovedInKeeps(disk, t, trace, verified);
      BytesAppend(trace, Moved(t, disk.home.value), disk.objects);
      ReturnsAppend(trace, Moved(t, disk.home.value));
      trace := trace + [Moved(t, disk.home.value)];
      disk := MovedIn(disk, t);
    }

    /** `remove` for the entry the name denotes; `t` is the random token of its operation. What it reports is exactly
        what it proved removed. */
    method Remove(t: Token, expected: Expected) returns (r: Result<Removal>)
      requires Valid() && !crashed
      modifies this
      ensures Continues()
      ensures (r.Crashed? <==> crashed) && !r.Raised?
      ensures Bytes(trace, disk.objects) >= Bytes(old(trace), old(disk.objects))
      ensures r.Done? ==> Bytes(trace, disk.objects) == Bytes(old(trace), old(disk.objects)) + r.value.bytes
      ensures r.Done? && (exists k :: |old(trace)| <= k < |trace| && trace[k].Returned?) ==> r.value.problem != NoProblem
      ensures StartsAt(old(trace), trace)
      ensures Returns(old(trace)) <= Returns(trace) <= Returns(old(trace)) + 1
      ensures r.Done? ==> AccountsFor(old(trace), trace, r.value.problem)
      ensures old(script) == [] && old(answers) == [] ==>
                script == [] && answers == [] && r == Done(RemovedQuietly(old(disk), t, expected, standing).1) &&
                disk == RemovedQuietly(old(disk), t, expected, standing).0
    {
      hide InOrder, Links, Returns, Bytes, Waited, Claimed, OpenedQuietly;
      var ok := Interrupt();
      if crashed { return Crashed; }
      if !ok { return Done(Removal(0, Unavailable)); }
      if disk.home.None? { return Done(Removal(0, NoProblem)); }
      var o, pinned := disk.home.value, disk.pinned;
      ghost var before := disk;
      HomeInOrder(disk, trace, verified);
      Pin(o);
      r := RemoveOpened(t, o, expected);
      if r.Raised? { r := Done(Removal(0, Unavailable)); }
      ReturnsTell(old(trace), trace);
      if !crashed {
        Unpin(pinned);
        PinnedRemoves(before, pinned + {o}, t, o, expected, standing);
      }
    }

    /** The rest of `remove`, and `_quarantine`, with the verified object held open. */
    method RemoveOpened(t: Token, o: ObjectId, expected: Expected) returns (r: Result<Removal>)
      requires Valid() && !crashed && o in disk.objects && o in disk.pinned
      modifies this
      ensures Continues()
      ensures r.Crashed? <==> crashed
      ensures Bytes(trace, disk.objects) >= Bytes(old(trace), old(disk.objects))
      ensures r.Done? ==> Bytes(trace, disk.objects) == Bytes(old(trace), old(disk.objects)) + r.value.bytes
      ensures r.Raised? ==> Bytes(trace, disk.objects) == Bytes(old(trace), old(disk.objects))
      ensures StartsAt(old(trace), trace)
      ensures Returns(old(trace)) <= Returns(trace) <= Returns(old(trace)) + 1
      ensures r.Done? ==> AccountsFor(old(trace), trace, r.value.problem)
      ensures r.Done? ==> NamesForeign(old(trace), trace, disk, old(disk.objects)[o].ino, r.value.problem)
      ensures old(script) == [] && old(answers) == [] && old(disk.home) == Some(o) ==>
                script == [] && answers == [] && r == Done(OpenedQuietly(old(disk), t, o, expected, standing).1) &&
                disk == OpenedQuietly(old(disk), t, o, expected, standing).0
    {
      hide InOrder, Links, Returns, Bytes, Waited, Claimed;
      var info := disk.objects[o];
      var answer := Ask(info.ino);
      BytesAppend(old(trace), Asked(info.ino, answer), disk.objects);
      if answer != Allowed { return Done(Removal(0, Refused(answer))); }
      var problem := Inspect(o, expected);
      if problem != NoProblem { return Done(Removal(0, problem)); }
      r := MoveAside(t, o, Manifest(info.ino, info.size, expected.sha), expected);
    }

    /** The open file is checked before anything is moved; the record is of the links it had. */
    method Inspect(o: ObjectId, expected: Expected) returns (problem: Problem)
      requires Valid() && o in disk.objects && trace != [] && trace[|trace| - 1] == Asked(disk.objects[o].ino, Allowed)
      modifies `trace
      ensures Valid() && problem == IdentityProblem(disk, o, expected)
      ensures trace == old(trace) + if problem == NoProblem then [Inspected(o, Links(disk, o))] else []
      ensures Bytes(trace, disk.objects) == Bytes(old(trace), disk.objects)
      ensures Returns(trace) == Returns(old(trace))
    {
      problem := IdentityProblem(disk, o, expected);
      if problem == NoProblem {
        ghost var e := Inspected(o, Links(disk, o));
        InspectedIsLawful(disk, o, trace);
        ObservedKeeps(disk, e, trace, verified);
        BytesAppend(trace, e, disk.objects);
        ReturnsAppend(trace, e);
        trace := trace + [e];
      }
    }

    /** `_quarantine` up to the rename: the operation directory and its manifest. */
    method Prepare(t: Token, o: ObjectId, record: Manifest) returns (r: Result<Problem>)
      requires Valid() && !crashed
      requires o in disk.objects && disk.objects[o].ino == record.ino && disk.objects[o].size == record.size
      requires trace != [] && trace[|trace| - 1] == Inspected(o, 1)
      modifies this
      ensures Continues() && answers == old(answers)
      ensures r.Crashed? <==> crashed
      ensures Bytes(trace, disk.objects) == Bytes(old(trace), old(disk.objects))
      ensures trace == old(trace) || trace == old(trace) + [Recorded(t, o, record)]
      ensures r == Done(NoProblem) ==>
                && t in disk.ops && disk.ops[t] == Operation(Written(record), None)
                && t in verified && verified[t] == o && trace == old(trace) + [Recorded(t, o, record)]
      ensures Returns(trace) == Returns(old(trace))
      ensures old(script) == [] ==>
                script == [] && if t in old(disk.ops) then r == Done(Conflict) && disk == old(disk)
                                else r == Done(NoProblem) && disk == PreparedQuietly(old(disk), t, record)
    {
      hide InOrder, Links, Returns, Bytes, Waited, Claimed;
      var ok := Interrupt();
      if crashed { return Crashed; }
      if !ok { return Done(Unavailable); }
      if t in disk.ops { return Done(Conflict); }
      MakeDirectory(t);
      ok := Interrupt();
      if crashed { return Crashed; }
      if !ok { return Raised; }
      ok := WriteManifest(t, record, o);
      if crashed { return Crashed; }
      r := if ok then Done(NoProblem) else Raised;
    }

    /** `_quarantine`: the manifest is complete before the name is moved aside, and what was moved is settled. */
    method MoveAside(t: Token, o: ObjectId, record: Manifest, expected: Expected) returns (r: Result<Removal>)
      requires Valid() && !crashed && o in disk.objects && o in disk.pinned
      requires disk.objects[o].ino == record.ino && disk.objects[o].size == record.size && disk.objects[o].regular
      requires trace != [] && trace[|trace| - 1] == Inspected(o, 1)
      modifies this
      ensures Continues()
      ensures r.Crashed? <==> crashed
      ensures Bytes(trace, disk.objects) >= Bytes(old(trace), old(disk.objects))
      ensures r.Done? ==> Bytes(trace, disk.objects) == Bytes(old(trace), old(disk.objects)) + r.value.bytes
      ensures r.Raised? ==> Bytes(trace, disk.objects) == Bytes(old(trace), old(disk.objects))
      ensures MovesAfterManifest(old(trace), trace, t, o, record)
      ensures Returns(old(trace)) <= Returns(trace) <= Returns(old(trace)) + 1
      ensures r.Done? ==> AccountsFor(old(trace), trace, r.value.problem)
      ensures r.Done? ==> NamesForeign(old(trace), trace, disk, record.ino, r.value.problem)
      ensures old(script) == [] && old(answers) == [] && old(disk.home) == Some(o) ==>
                script == [] && answers == [] && r == Done(AsideQuietly(old(disk), t, record, expected, standing).1) &&
                disk == AsideQuietly(old(disk), t, record, expected, standing).0
    {
      hide InOrder, Links, Returns, Bytes, Waited, Claimed, SettledQuietly;
      var ready := Prepare(t, o, record);
      if ready.Crashed? { return Crashed; }
      if ready.Raised? { return Raised; }
      if ready.value != NoProblem { return Done(Removal(0, ready.value)); }
      r := MoveRecorded(t, o, record, expected);
    }

    /** The rename of whatever the name denotes now, once the manifest is complete; nothing is there to move, or the
        kernel refuses, and the operation is cleared. */
    method MoveRecorded(t: Token, o: ObjectId, record: Manifest, expected: Expected) returns (r: Result<Removal>)
      requires Valid() && !crashed && t in disk.ops && disk.ops[t] == Operation(Written(record), None)
      requires o in disk.pinned && o in disk.objects && t in verified && verified[t] == o
      requires disk.objects[o].ino == record.ino && disk.objects[o].size == record.size && disk.objects[o].regular
      requires trace != [] && trace[|trace| - 1] == Recorded(t, o, record)
      modifies this
      ensures Continues()
      ensures r.Crashed? <==> crashed
      ensures Bytes(trace, disk.objects) >= Bytes(old(trace), old(disk.objects))
      ensures r.Done? ==> Bytes(trace, disk.objects) == Bytes(old(trace), old(disk.objects)) + r.value.bytes
      ensures r.Raised? ==> Bytes(trace, disk.objects) == Bytes(old(trace), old(disk.objects))
      ensures MovesFirst(old(trace), trace, t)
      ensures Returns(old(trace)) <= Returns(trace) <= Returns(old(trace)) + 1
      ensures r.Done? ==> AccountsFor(old(trace), trace, r.value.problem)
      ensures r.Done? ==> NamesForeign(old(trace), trace, disk, record.ino, r.value.problem)
      ensures old(script) == [] && old(answers) == [] && old(disk.home) == Some(o) ==>
                script == [] && answers == [] &&
                var (after, s) := SettledQuietly(MovedIn(old(disk), t), t, Some(record), Some(expected), standing);
                r == Done(Removal(s.bytes, s.problem)) && disk == after
    {
      hide InOrder, Links, Returns, Bytes, Waited, Claimed, SettledQuietly;
      var ok := Interrupt();
      if crashed { return Crashed; }
      if !ok || disk.home.None? {
        var _ := CloseOperation(t);
        if crashed { return Crashed; }
        return Done(Removal(0, if ok then NoProblem else Unsupported));
      }
      HomeInOrder(disk, trace, verified);
      MoveIn(t, o, record);
      r := SettleMoved(t, record, expected);
    }

    method SettleMoved(t: Token, record: Manifest, expected: Expected) returns (r: Result<Removal>)
      requires Valid() && !crashed && t in disk.ops && disk.ops[t].manifest == Written(record) && disk.ops[t].payload.Some?
      modifies this
      ensures Continues()
      ensures r.Crashed? <==> crashed
      ensures Bytes(trace, disk.objects) >= Bytes(old(trace), old(disk.objects))
      ensures r.Done? ==> Bytes(trace, disk.objects) == Bytes(old(trace), old(disk.objects)) + r.value.bytes
      ensures r.Raised? ==> Bytes(trace, disk.objects) == Bytes(old(trace), old(disk.objects))
      ensures NothingStarted(old(trace), trace)
      ensures Returns(old(trace)) <= Returns(trace) <= Returns(old(trace)) + 1
      ensures r.Done? ==> AccountsFor(old(trace), trace, r.value.problem)
      ensures r.Done? && r.value.problem == NoProblem ==> Reclaims(trace, old(disk.ops)[t].payload.value)
      ensures r.Done? && Foreign(old(disk), t, record) ==> SaysForeign(r.value.problem)
      ensures old(script) == [] && old(answers) == [] ==>
                script == [] && answers == [] &&
                var (after, s) := SettledQuietly(old(disk), t, Some(record), Some(expected), standing);
                r == Done(Removal(s.bytes, s.problem)) && disk == after
    {
      hide InOrder, Links, Returns, Bytes, Waited, Claimed, SettledQuietly;
      var ok := Interrupt();
      if crashed { return Crashed; }
      if !ok { return Raised; }
      var s := Settle(t, Some(record), Some(expected));
      if s.Crashed? { return Crashed; }
      if s.Raised? { return Raised; }
      r := Done(Removal(s.value.bytes, s.value.problem));
    }

    /** `reclaim`: settle what was interrupted, and start nothing new while any of it is unresolved: a new removal begins
        only with nothing held in quarantine, as long as the listing was not cut off. `settled` is what the recovery
        reported. */
    method Reclaim(t: Token, expected: Expected, ahead: nat) returns (r: Result<Reclamation>, ghost settled: seq<Settled>)
      requires Valid() && !crashed
      modifies this
      ensures Continues()
      ensures r.Crashed? <==> crashed
      ensures Bytes(trace, disk.objects) >= Bytes(old(trace), old(disk.objects))
      ensures r.Done? ==> Bytes(trace, disk.objects) == Bytes(old(trace), old(disk.objects)) + r.value.bytes
      ensures r.Done? && Unresolved(settled) ==>
                r.value == Reclamation(TotalBytes(settled), Problems(settled)) && NothingStarted(old(trace), trace)
      ensures r.Done? && !Unresolved(settled) ==>
                Problems(settled) <= r.value.problems && |r.value.problems| <= |Problems(settled)| + 1
      ensures ahead + |old(disk.ops)| <= MAX_OPERATIONS ==>
                forall k :: |old(trace)| <= k < |trace| && trace[k].Inspected? ==> Held(trace[..k]) == map[]
      ensures r.Done? ==> |r.value.problems| >= Returns(trace) - Returns(old(trace))
      ensures r.Done? && r.value.problems == [] ==> AccountsFor(old(trace), trace, NoProblem)
      ensures old(script) == [] && old(answers) == [] ==>
                script == [] && answers == [] && r == Done(ReclaimedQuietly(old(disk), t, expected, ahead, standing).1) &&
                disk == ReclaimedQuietly(old(disk), t, expected, ahead, standing).0
    {
      hide InOrder, Links, Returns, Bytes, Listed, RemovedQuietly, RecoveredQuietly;
      settled := [];
      var recovered := Recover(Some(expected), ahead);
      if recovered.Crashed? { return Crashed, settled; }
      if recovered.Raised? { return Raised, settled; }
      settled := recovered.value;
      RestorationsHaveProblems(settled);
      var removed := SumBytes(recovered.value);
      var problems := ListProblems(recovered.value);
      if exists i :: 0 <= i < |recovered.value| && recovered.value[i].state.Kept? {
        return Done(Reclamation(removed, problems)), settled;
      }
      ghost var resolved, ops := trace, disk.ops;
      NothingHeld(disk, trace, verified, old(disk.ops.Keys), ahead);
      var gone := Remove(t, expected);
      FirstStart(old(trace), resolved, trace);
      ReturnsTell(resolved, trace);
      if gone.Crashed? { return Crashed, settled; }
      assert Problems(settled) + [] == Problems(settled);
      problems := problems + if gone.value.problem == NoProblem then [] else [gone.value.problem];
      r := Done(Reclamation(removed + gone.value.bytes, problems));
    }

    /** Any number of runs, each after the last one ended or died: what they report together never exceeds the
        sizes of the objects proven removed, and is exactly that if every run ended in order. */
    method Sweep(runs: seq<(Token, nat)>, expected: Expected) returns (reported: nat, complete: bool)
      requires Valid() && !crashed
      modifies this
      ensures Valid() && old(trace) <= trace
      ensures reported <= Bytes(trace, disk.objects) - Bytes(old(trace), old(disk.objects))
      ensures complete ==> reported == Bytes(trace, disk.objects) - Bytes(old(trace), old(disk.objects))
    {
      hide InOrder, Bytes;
      reported, complete := 0, true;
      for i := 0 to |runs|
        invariant Valid() && !crashed && old(trace) <= trace
        invariant Bytes(trace, disk.objects) >= Bytes(old(trace), old(disk.objects))
        invariant reported <= Bytes(trace, disk.objects) - Bytes(old(trace), old(disk.objects))
        invariant complete ==> reported == Bytes(trace, disk.objects) - Bytes(old(trace), old(disk.objects))
      {
        var r, _ := Reclaim(runs[i].0, expected, runs[i].1);
        if r.Done? { reported := reported + r.value.bytes; } else { complete := false; }
        if crashed { Reboot(); }
      }
    }

    method ListProblems(settled: seq<Settled>) returns (problems: seq<Problem>)
      ensures problems == Problems(settled)
    {
      problems := [];
      for i := 0 to |settled|
        invariant problems == Problems(settled[..i])
      {
        assert settled[..i + 1][..i] == settled[..i];
        if settled[i].problem != NoProblem {
          problems := problems + [settled[i].problem];
        }
      }
      assert settled[..|settled|] == settled;
    }

    method SumBytes(settled: seq<Settled>) returns (total: nat)
      ensures total == TotalBytes(settled)
    {
      total := 0;
      for i := 0 to |settled|
        invariant total == TotalBytes(settled[..i])
      {
        assert settled[..i + 1][..i] == settled[..i];
        total := total + settled[i].bytes;
      }
      assert settled[..|settled|] == settled;
    }

    /** The next run after a crash. */
    method Reboot()
      requires Valid()
      modifies `crashed
      ensures Valid() && !crashed
    {
      crashed := false;
    }

    function LinkCount(o: ObjectId): (n: nat)
      reads this
      ensures n == Links(disk, o)
    {
      Links(disk, o)
    }
  }

  // -- what the parts do when nothing interferes --------------------------------------------------------------------

  ghost predicate OthersKept(a: map<Token, Operation>, b: map<Token, Operation>, t: Token) {
    forall u :: u != t ==> (u in a <==> u in b) && (u in a ==> b[u] == a[u])
  }

  function ClosedQuietly(d: Disk, t: Token): Disk
    requires t in d.ops
  {
    if d.ops[t].payload.None? then d.(ops := d.ops - {t})
    else d.(ops := d.ops[t := d.ops[t].(manifest := NoManifest)])
  }

  function RestoredQuietly(d: Disk, t: Token, reason: Problem): (Disk, Settled)
    requires t in d.ops && d.ops[t].payload.Some?
  {
    if d.home.Some? then (d, Settled(Kept, 0, RestoreBlocked))
    else (ClosedQuietly(PutBack(d, t), t), Settled(Restored, 0, reason))
  }

  function DeletedQuietly(d: Disk, t: Token): (Disk, Settled)
    requires t in d.ops && d.ops[t].payload.Some? && d.ops[t].payload.value in d.objects
  {
    (ClosedQuietly(Unlinked(d, t), t), Settled(Deleted, d.objects[d.ops[t].payload.value].size, NoProblem))
  }

  function PayloadSettledQuietly(d: Disk, t: Token, record: Manifest, expected: Option<Expected>, answer: Answer)
    : (Disk, Settled)
    requires t in d.ops && d.ops[t].payload.Some? && d.ops[t].payload.value in d.objects
  {
    var reason := MovedProblem(d, d.ops[t].payload.value, record, expected);
    if reason != NoProblem then RestoredQuietly(d, t, reason) else AnsweredQuietly(d, t, answer)
  }

  function AnsweredQuietly(d: Disk, t: Token, answer: Answer): (Disk, Settled)
    requires t in d.ops && d.ops[t].payload.Some? && d.ops[t].payload.value in d.objects
  {
    match answer
    case Unknown => (d, Settled(Kept, 0, Pending))
    case Denied => RestoredQuietly(d, t, Refused(answer))
    case Allowed => DeletedQuietly(d, t)
  }

  function SettledQuietly(d: Disk, t: Token, record: Option<Manifest>, expected: Option<Expected>, answer: Answer)
    : (Disk, Settled)
  {
    if t !in d.ops then (d, Settled(Cleared, 0, NoProblem))
    else if d.ops[t].payload.None? then (ClosedQuietly(d, t), Settled(Cleared, 0, NoProblem))
    else if record.None? || d.ops[t].payload.value !in d.objects || !d.objects[d.ops[t].payload.value].regular
    then (d, Settled(Kept, 0, RecoveryRequired))
    else PayloadSettledQuietly(d, t, record.value, expected, answer)
  }

  /** What is held open makes no difference to what is decided. */
  lemma PinnedSettles(d: Disk, pinned: set<ObjectId>, t: Token, record: Manifest, expected: Option<Expected>,
                      answer: Answer)
    requires t in d.ops && d.ops[t].payload.Some? && d.ops[t].payload.value in d.objects
    ensures var p := PayloadSettledQuietly(d.(pinned := pinned), t, record, expected, answer);
            var q := PayloadSettledQuietly(d, t, record, expected, answer);
            p.0.(pinned := d.pinned) == q.0 && p.1 == q.1
  {
    PinLinks(d, pinned);
    hide Links;
  }

  const MAX_OPERATIONS := 10000

  function FirstListed(all: seq<Token>, ahead: nat): seq<Token> {
    if ahead >= MAX_OPERATIONS then [] else if |all| <= MAX_OPERATIONS - ahead then all else all[..MAX_OPERATIONS - ahead]
  }

  /** `operations`: the listing is cut off at its bound. */
  ghost function Listed(ops: set<Token>, ahead: nat): seq<Token> {
    FirstListed(SortedSet(ops, TokenOrder), ahead)
  }

  /** Within the bound every operation is listed. */
  lemma ListedAll(ops: set<Token>, ahead: nat)
    requires ahead + |ops| <= MAX_OPERATIONS
    ensures Listed(ops, ahead) == SortedSet(ops, TokenOrder) && forall t :: t in ops ==> t in Listed(ops, ahead)
  {
    SortedSetElements(ops, TokenOrder);
    if ahead >= MAX_OPERATIONS {
      assert |SortedSet(ops, TokenOrder)| == 0;
    }
  }

  ghost predicate Unresolved(results: seq<Settled>) {
    exists i :: 0 <= i < |results| && results[i].state.Kept?
  }

  lemma UnresolvedAppend(results: seq<Settled>, last: Settled)
    ensures Unresolved(results + [last]) <==> Unresolved(results) || last.state.Kept?
  {
    var n := results + [last];
    if Unresolved(results) {
      var i :| 0 <= i < |results| && results[i].state.Kept?;
      assert n[i].state.Kept?;
    }
    if last.state.Kept? {
      assert n[|results|].state.Kept?;
    }
  }

  /** Nothing was inspected, recorded or moved aside since. */
  ghost predicate NothingStarted(before: seq<Event>, after: seq<Event>) {
    && before <= after
    && forall k :: |before| <= k < |after| ==> !after[k].Inspected? && !after[k].Recorded? && !after[k].Moved?
  }

  /** What was settled is reported as it was: exactly a payload that went back is called restored, and whatever went back or
      stayed has its problem. */
  ghost predicate Reports(before: seq<Event>, after: seq<Event>, s: Settled) {
    && before <= after && Returns(after) == Returns(before) + (if s.state.Restored? then 1 else 0)
    && (s.state.Restored? || s.state.Kept? ==> s.problem != NoProblem)
  }

  /** The last thing done was to claim the object's bytes. */
  ghost predicate Reclaims(after: seq<Event>, o: ObjectId) {
    after != [] && after[|after| - 1] == Reclaimed(o)
  }

  /** A call that names no problem returned nothing, and claimed the bytes of whatever it moved aside as its last act. */
  ghost predicate AccountsFor(before: seq<Event>, after: seq<Event>, problem: Problem) {
    && before <= after
    && (problem == NoProblem ==>
          && Returns(after) == Returns(before)
          && forall k :: |before| <= k < |after| && after[k].Moved? ==> Reclaims(after, after[k].file))
  }

  /** What is reported of an object that is not the one proven: that it is another one, or what kept it from being put back in
      good order. */
  predicate SaysForeign(problem: Problem) {
    problem in {IdentityMismatch, Leftover, RecoveryRequired, RestoreBlocked, Unavailable}
  }

  predicate Foreign(d: Disk, t: Token, record: Manifest)
    requires t in d.ops
  {
    && d.ops[t].payload.Some? && d.ops[t].payload.value in d.objects
    && d.objects[d.ops[t].payload.value].ino != record.ino
  }

  /** Whatever was moved aside instead of the object proven is said to be another one. */
  ghost predicate NamesForeign(before: seq<Event>, after: seq<Event>, d: Disk, ino: nat, problem: Problem) {
    before <= after &&
    forall k :: |before| <= k < |after| && after[k].Moved? && after[k].file in d.objects && d.objects[after[k].file].ino != ino ==>
      SaysForeign(problem)
  }

  function Restorations(results: seq<Settled>): nat {
    if results == [] then 0
    else Restorations(results[..|results| - 1]) + if results[|results| - 1].state.Restored? then 1 else 0
  }

  /** One result for every payload that went back, and a problem for every one that went back or stayed. */
  ghost predicate AllReported(before: seq<Event>, after: seq<Event>, results: seq<Settled>) {
    && before <= after && Returns(after) == Returns(before) + Restorations(results)
    && forall i :: 0 <= i < |results| && (results[i].state.Restored? || results[i].state.Kept?) ==>
         results[i].problem != NoProblem
  }

  lemma ReportedAppend(before: seq<Event>, middle: seq<Event>, after: seq<Event>, results: seq<Settled>, last: Settled)
    requires AllReported(before, middle, results) && Reports(middle, after, last)
    ensures AllReported(before, after, results + [last])
  {
    assert (results + [last])[..|results|] == results;
  }

  lemma NoneReported(trace: seq<Event>)
    ensures AllReported(trace, trace, []) && AllReported(trace, trace, [Settled(Kept, 0, Unavailable)])
  {
    assert Restorations([Settled(Kept, 0, Unavailable)]) == 0;
  }

  /** Each payload that went back left its problem in the list. */
  lemma {:induction false} RestorationsHaveProblems(results: seq<Settled>)
    requires forall i :: 0 <= i < |results| && results[i].state.Restored? ==> results[i].problem != NoProblem
    ensures |Problems(results)| >= Restorations(results)
  {
    if results != [] {
      RestorationsHaveProblems(results[..|results| - 1]);
    }
  }

  lemma NothingStartedYet(before: seq<Event>)
    ensures NothingStarted(before, before)
  {
  }

  lemma PutBackOthers(d: Disk, t: Token)
    requires d.home.None? && t in d.ops && d.ops[t].payload.Some?
    ensures var n := PutBack(d, t);
            && OthersKept(d.ops, n.ops, t) && t in n.ops && n.ops[t].payload.None?
            && n.objects == d.objects && n.pinned == d.pinned
  {
  }

  lemma UnlinkedOthers(d: Disk, t: Token)
    requires t in d.ops && d.ops[t].payload.Some?
    ensures var n := Unlinked(d, t);
            && OthersKept(d.ops, n.ops, t) && t in n.ops && n.ops[t].payload.None?
            && n.objects == d.objects && n.pinned == d.pinned
  {
  }

  lemma UnlinkStartsNothing(before: seq<Event>, removed: Event, claimed: Event)
    requires removed.Removed? && claimed.Reclaimed?
    ensures NothingStarted(before, before + [removed]) && NothingStarted(before, before + [removed, claimed])
    ensures before + [removed] + [claimed] == before + [removed, claimed]
  {
  }

  predicate Emptied(ops: map<Token, Operation>, t: Token) {
    t in ops ==> ops[t].payload.None?
  }

  predicate TokenOrder(a: Token, b: Token) {
    a <= b
  }

  function BytesOf(s: Option<Settled>): nat {
    if s.Some? then s.value.bytes else 0
  }

  function TotalBytes(results: seq<Settled>): nat {
    if results == [] then 0 else TotalBytes(results[..|results| - 1]) + results[|results| - 1].bytes
  }

  function Problems(results: seq<Settled>): seq<Problem> {
    if results == [] then []
    else
      var last := results[|results| - 1];
      Problems(results[..|results| - 1]) + if last.problem == NoProblem then [] else [last.problem]
  }

  /** Settling operations one after another, with every read and answer as it is now. */
  function RecoveredQuietly(d: Disk, tokens: seq<Token>, expected: Option<Expected>, answer: Answer): (Disk, seq<Settled>)
  {
    if tokens == [] then (d, [])
    else
      var t := tokens[|tokens| - 1];
      var (before, results) := RecoveredQuietly(d, tokens[..|tokens| - 1], expected, answer);
      if t !in before.ops then (before, results)
      else
        var (after, last) := SettledQuietly(before, t, RecordOf(before, t), expected, answer);
        (after, results + [last])
  }

  function PreparedQuietly(d: Disk, t: Token, record: Manifest): Disk {
    d.(ops := d.ops[t := Operation(Written(record), None)])
  }

  function AsideQuietly(d: Disk, t: Token, record: Manifest, expected: Expected, answer: Answer): (Disk, Removal)
    requires d.home.Some?
  {
    if t in d.ops then (d, Removal(0, Conflict))
    else
      var (after, s) := SettledQuietly(MovedIn(PreparedQuietly(d, t, record), t), t, Some(record), Some(expected), answer);
      (after, Removal(s.bytes, s.problem))
  }

  function OpenedQuietly(d: Disk, t: Token, o: ObjectId, expected: Expected, answer: Answer): (Disk, Removal)
    requires o in d.objects && d.home.Some?
  {
    if answer != Allowed then (d, Removal(0, Refused(answer)))
    else
      var problem := IdentityProblem(d, o, expected);
      if problem != NoProblem then (d, Removal(0, problem))
      else AsideQuietly(d, t, Manifest(d.objects[o].ino, d.objects[o].size, expected.sha), expected, answer)
  }

  function RemovedQuietly(d: Disk, t: Token, expected: Expected, answer: Answer): (Disk, Removal) {
    if d.home.None? || d.home.value !in d.objects then (d, Removal(0, NoProblem))
    else OpenedQuietly(d, t, d.home.value, expected, answer)
  }

  ghost function ReclaimedQuietly(d: Disk, t: Token, expected: Expected, ahead: nat, answer: Answer): (Disk, Reclamation) {
    var (after, settled) := RecoveredQuietly(d, Listed(d.ops.Keys, ahead), Some(expected), answer);
    if Unresolved(settled) then (after, Reclamation(TotalBytes(settled), Problems(settled)))
    else
      var (n, gone) := RemovedQuietly(after, t, expected, answer);
      (n, Reclamation(TotalBytes(settled) + gone.bytes,
                      Problems(settled) + if gone.problem == NoProblem then [] else [gone.problem]))
  }

  lemma PinnedRemoves(d: Disk, pinned: set<ObjectId>, t: Token, o: ObjectId, expected: Expected, answer: Answer)
    requires o in d.objects && d.home == Some(o)
    ensures var p := OpenedQuietly(d.(pinned := pinned), t, o, expected, answer);
            var q := OpenedQuietly(d, t, o, expected, answer);
            p.0.(pinned := d.pinned) == q.0 && p.1 == q.1
  {
    PinLinks(d, pinned);
    var record := Manifest(d.objects[o].ino, d.objects[o].size, expected.sha);
    if t !in d.ops {
      var m := MovedIn(PreparedQuietly(d, t, record), t);
      assert MovedIn(PreparedQuietly(d.(pinned := pinned), t, record), t) == m.(pinned := pinned);
      hide Links, PayloadSettledQuietly;
      PinnedSettles(m, pinned, t, record, Some(expected), answer);
    }
    hide Links, SettledQuietly;
  }

  // -- when a new removal starts ------------------------------------------------------------------------------------

  /** What a call moved aside, it moved right after completing its manifest: the first thing it recorded. */
  ghost predicate MovesAfterManifest(before: seq<Event>, after: seq<Event>, t: Token, o: ObjectId, record: Manifest) {
    && before <= after
    && (|after| > |before| ==> after[|before|] == Recorded(t, o, record))
    && forall k :: |before| < k < |after| ==>
         !after[k].Inspected? && !after[k].Recorded? &&
         (after[k].Moved? ==> k == |before| + 1 && after[k].op == t)
  }

  /** At most the first thing after was moving aside into the operation. */
  ghost predicate MovesFirst(before: seq<Event>, after: seq<Event>, t: Token) {
    && before <= after
    && forall k :: |before| <= k < |after| ==>
         !after[k].Inspected? && !after[k].Recorded? && (after[k].Moved? ==> k == |before| && after[k].op == t)
  }

  /** A removal inspects at most once, right after its first question. */
  ghost predicate StartsAt(before: seq<Event>, after: seq<Event>) {
    before <= after && forall k :: |before| <= k < |after| && after[k].Inspected? ==> k == |before| + 1 && after[|before|].Asked?
  }

  /** When every operation listed was resolved and none was cut off, nothing is held. */
  lemma NothingHeld(d: Disk, trace: seq<Event>, verified: map<Token, ObjectId>, ops: set<Token>, ahead: nat)
    requires InOrder(d, trace, verified) && d.ops.Keys <= ops
    requires forall t :: t in Listed(ops, ahead) ==> Emptied(d.ops, t)
    ensures ahead + |ops| <= MAX_OPERATIONS ==> Held(trace) == map[]
  {
    if ahead + |ops| <= MAX_OPERATIONS {
      ListedAll(ops, ahead);
      hide Listed, Held, Lawful, Links, DiskOk, Claimed, ClaimedOnce;
      assert forall t :: t !in Held(trace);
      assert Held(trace).Keys == {};
    }
  }

  lemma FirstStart(before: seq<Event>, resolved: seq<Event>, after: seq<Event>)
    requires NothingStarted(before, resolved) && StartsAt(resolved, after)
    ensures Held(resolved) == map[] ==>
              forall k :: |before| <= k < |after| && after[k].Inspected? ==> Held(after[..k]) == map[]
  {
    assert forall k :: |before| <= k < |resolved| ==> after[k] == resolved[k];
    forall k | |resolved| <= k < |after| && after[k].Inspected? ensures Held(after[..k]) == Held(resolved) {
      assert after[..k] == resolved + [after[|resolved|]];
      HeldAppend(resolved, after[|resolved|]);
    }
  }

  lemma ProvedIsLawful(d: Disk, t: Token, trace: seq<Event>, verified: map<Token, ObjectId>)
    requires InOrder(d, trace, verified) && t in d.ops && d.ops[t].payload.Some?
    requires d.ops[t].payload.value in d.objects && Links(d, d.ops[t].payload.value) == 1
    ensures LawfulAt(trace + [Proved(t, d.ops[t].payload.value, Links(d, d.ops[t].payload.value))], |trace|, d.objects)
  {
    PayloadIsAnObject(d, trace, t, verified);
    hide Held, Owned, Lawful, Links, DiskOk, Claimed, ClaimedOnce;
    assert (trace + [Proved(t, d.ops[t].payload.value, 1)])[..|trace|] == trace;
  }

  lemma InspectedIsLawful(d: Disk, o: ObjectId, trace: seq<Event>)
    requires o in d.objects && d.objects[o].regular && Links(d, o) == 1
    requires trace != [] && trace[|trace| - 1] == Asked(d.objects[o].ino, Allowed)
    ensures LawfulAt(trace + [Inspected(o, Links(d, o))], |trace|, d.objects)
  {
  }

  /** Between its verification and the rename the object was held open, so no other object has its inode number:
      what was moved either is that object or shows another number. */
  lemma OnlyItsOwn(d: Disk, t: Token, o: ObjectId, record: Manifest, verified: map<Token, ObjectId>)
    requires DiskOk(d) && d.home.Some? && o in d.pinned && o in d.objects && t in verified && verified[t] == o
    requires d.objects[o].ino == record.ino && d.objects[o].size == record.size && d.objects[o].regular
    ensures OwnPayload(d, verified, t, record, d.home.value)
  {
    HomeIsAnObject(d);
    assert Live(d, o) && Live(d, d.home.value);
  }

  lemma OtherOwnPayloads(d: Disk, n: Disk, before: map<Token, ObjectId>, after: map<Token, ObjectId>, t: Token)
    requires OwnPayloads(d, before) && t in d.ops && n.objects == d.objects
    requires t in n.ops && n.ops[t].payload.None? && t in after && after == before[t := after[t]]
    requires n.ops.Keys == d.ops.Keys && forall u :: u in d.ops && u != t ==> n.ops[u] == d.ops[u]
    ensures OwnPayloads(n, after)
  {
    forall u | u in n.ops && n.ops[u].manifest.Written? && n.ops[u].payload.Some?
      ensures OwnPayload(n, after, u, n.ops[u].manifest.record, n.ops[u].payload.value)
    {
      assert OwnPayload(d, before, u, d.ops[u].manifest.record, d.ops[u].payload.value);
    }
  }

  lemma HomeInOrder(d: Disk, trace: seq<Event>, verified: map<Token, ObjectId>)
    requires InOrder(d, trace, verified) && d.home.Some?
    ensures d.home.value in d.objects && Links(d, d.home.value) > 0
  {
    HomeIsAnObject(d);
  }

  lemma PinLinks(d: Disk, pinned: set<ObjectId>)
    ensures forall o :: Links(d.(pinned := pinned), o) == Links(d, o)
  {
  }

  // -- recovery converges -------------------------------------------------------------------------------------------

  /** Why an operation is still there after recovery, and what is reported of it: its payload is not provably its own
      (no valid manifest, or not a file); or it must go back and the name is taken; or authority keeps it pending. */
  function KeptReason(d: Disk, t: Token, expected: Option<Expected>, answer: Answer): Option<Problem>
    requires t in d.ops && d.ops[t].payload.Some? && d.ops[t].payload.value in d.objects
  {
    var o, record := d.ops[t].payload.value, RecordOf(d, t);
    if record.None? || !d.objects[o].regular then Some(RecoveryRequired)
    else if MovedProblem(d, o, record.value, expected) == NoProblem && answer.Unknown? then Some(Pending)
    else if MovedProblem(d, o, record.value, expected) == NoProblem && answer.Allowed? then None
    else if d.home.Some? then Some(RestoreBlocked)
    else None
  }

  ghost predicate KeptForAReason(d: Disk, t: Token, expected: Option<Expected>, answer: Answer) {
    && t in d.ops && d.ops[t].payload.Some? && d.ops[t].payload.value in d.objects
    && KeptReason(d, t, expected, answer).Some?
  }

  ghost predicate SettledFor(d: Disk, t: Token, expected: Option<Expected>, answer: Answer) {
    t !in d.ops || KeptForAReason(d, t, expected, answer)
  }

  lemma SettlingSettles(d: Disk, t: Token, expected: Option<Expected>, answer: Answer)
    requires DiskOk(d) && t in d.ops
    ensures SettledFor(SettledQuietly(d, t, RecordOf(d, t), expected, answer).0, t, expected, answer)
  {
    hide Links;
  }

  /** A payload is kept, exactly where it is and reported with its reason, if and only if there is a reason; without one
      its operation is gone afterwards. */
  lemma KeptExactly(d: Disk, t: Token, expected: Option<Expected>, answer: Answer)
    requires DiskOk(d) && t in d.ops && d.ops[t].payload.Some?
    ensures var (n, s) := SettledQuietly(d, t, RecordOf(d, t), expected, answer);
            var reason := KeptReason(d, t, expected, answer);
            if reason.Some? then n == d && s == Settled(Kept, 0, reason.value)
            else t !in n.ops && !s.state.Kept?
  {
    hide Links;
  }

  /** The payload is what its complete manifest was made of, as far as its inode number tells. */
  predicate ShowsItsInode(d: Disk, t: Token)
    requires t in d.ops && d.ops[t].payload.Some? && d.ops[t].payload.value in d.objects
  {
    && d.ops[t].manifest.Written? && d.objects[d.ops[t].payload.value].regular
    && d.objects[d.ops[t].payload.value].ino == d.ops[t].manifest.record.ino
  }

  /** It has the recorded size and, when some content is expected, that content, as its manifest also says. */
  predicate ShowsItsContent(d: Disk, t: Token, expected: Option<Expected>)
    requires t in d.ops && d.ops[t].payload.Some? && d.ops[t].payload.value in d.objects && d.ops[t].manifest.Written?
  {
    var f, record := d.objects[d.ops[t].payload.value], d.ops[t].manifest.record;
    && f.size == record.size
    && (expected.Some? && expected.value.size.Some? ==> f.size == expected.value.size.value)
    && (expected.Some? && expected.value.sha.Some? ==> Some(f.sha) == expected.value.sha == record.sha)
  }

  /** The payload is under its name again, its operation is gone, and `problem` is reported; or the name is taken, and it
      stays where it is, with that reported. */
  predicate GoesBack(d: Disk, n: Disk, t: Token, s: Settled, problem: Problem)
    requires t in d.ops && d.ops[t].payload.Some?
  {
    if d.home.Some? then n == d && s == Settled(Kept, 0, RestoreBlocked)
    else n == d.(home := d.ops[t].payload, ops := d.ops - {t}) && s == Settled(Restored, 0, problem)
  }

  /** What becomes of a payload when nothing interferes, and exactly what is reported: another inode, a second link, other
      content or a refusal sends it back with that as its reason; authority may keep it pending; and only what is its own in
      all of these and allowed is deleted, its size counted. */
  lemma SettledExactly(d: Disk, t: Token, expected: Option<Expected>, answer: Answer)
    requires DiskOk(d) && t in d.ops && d.ops[t].payload.Some?
    ensures d.ops[t].payload.value in d.objects
    ensures var (n, s) := SettledQuietly(d, t, RecordOf(d, t), expected, answer);
            var o := d.ops[t].payload.value;
            if !d.ops[t].manifest.Written? || !d.objects[o].regular then n == d && s == Settled(Kept, 0, RecoveryRequired)
            else if !ShowsItsInode(d, t) then GoesBack(d, n, t, s, IdentityMismatch)
            else if Links(d, o) != 1 then GoesBack(d, n, t, s, HardLinked)
            else if !ShowsItsContent(d, t, expected) then GoesBack(d, n, t, s, IdentityMismatch)
            else if answer.Unknown? then n == d && s == Settled(Kept, 0, Pending)
            else if answer.Denied? then GoesBack(d, n, t, s, Refused(Denied))
            else n == d.(ops := d.ops - {t}) && s == Settled(Deleted, d.objects[o].size, NoProblem)
  {
    hide Links;
    var o := d.ops[t].payload.value;
    assert ClosedQuietly(Unlinked(d, t), t).ops == d.ops - {t};
    if d.home.None? {
      assert ClosedQuietly(PutBack(d, t), t).ops == d.ops - {t};
    }
  }

  /** Why an undisturbed removal leaves the file where it is: authority first, then what kind of file it is, its links, its
      content, and last a token already taken. */
  lemma LeftInPlaceExactly(d: Disk, t: Token, expected: Expected, answer: Answer)
    requires DiskOk(d) && d.home.Some?
    ensures var o := d.home.value;
            var r := RemovedQuietly(d, t, expected, answer).1;
            && o in d.objects
            && r.problem ==
                 if answer != Allowed then Refused(answer)
                 else if !d.objects[o].regular then NotRegular
                 else if Links(d, o) != 1 then HardLinked
                 else if expected.sha.Some? && d.objects[o].sha != expected.sha.value then FileMismatch
                 else if expected.size.Some? && d.objects[o].size != expected.size.value then FileMismatch
                 else if t in d.ops then Conflict
                 else NoProblem
  {
    HomeIsAnObject(d);
    hide Links, DiskOk, AsideQuietly;
    QuietRemovalExactly(d, t, expected, answer);
  }

  /** What settling one operation does to the rest of the disk: nothing, but that the name may be filled, and that
      the links of a payload with no other link may end. */
  lemma SettlingKeepsOthers(d: Disk, u: Token, t: Token, expected: Option<Expected>, answer: Answer)
    requires DiskOk(d) && u in d.ops && t in d.ops && t != u && d.ops[t].payload.Some?
    ensures var n := SettledQuietly(d, u, RecordOf(d, u), expected, answer).0;
            && n.objects == d.objects && t in n.ops && n.ops[t] == d.ops[t]
            && (d.home.Some? ==> n.home == d.home)
            && Links(n, d.ops[t].payload.value) == Links(d, d.ops[t].payload.value)
  {
    hide DiskOk, Links;
    ClosedKeepsDisk(d, u);
    if d.ops[u].payload.Some? {
      UnlinkedDisk(d, u);
      UnlinkedLinks(d, u, d.ops[t].payload.value);
      ClosedKeepsDisk(Unlinked(d, u), u);
      if d.home.None? {
        PutBackDisk(d, u);
        ClosedKeepsDisk(PutBack(d, u), u);
      }
      if d.ops[u].payload == d.ops[t].payload {
        SharedPayloadHasTwoLinks(d, t, u);
      }
    }
  }

  lemma SharedPayloadHasTwoLinks(d: Disk, t: Token, u: Token)
    requires t in d.ops && u in d.ops && t != u && d.ops[t].payload.Some? && d.ops[u].payload == d.ops[t].payload
    ensures Links(d, d.ops[t].payload.value) >= 2
  {
    var o := d.ops[t].payload.value;
    assert {t, u} <= Holders(d.ops, o);
    SubsetSize({t, u}, Holders(d.ops, o));
  }

  lemma {:induction false} SubsetSize(a: set<Token>, b: set<Token>)
    requires a <= b
    ensures |a| <= |b|
  {
    if a != {} {
      var x :| x in a;
      SubsetSize(a - {x}, b - {x});
    }
  }

  lemma SettlingKeepsReasons(d: Disk, u: Token, t: Token, expected: Option<Expected>, answer: Answer)
    requires DiskOk(d) && u in d.ops && t != u && SettledFor(d, t, expected, answer)
    ensures SettledFor(SettledQuietly(d, u, RecordOf(d, u), expected, answer).0, t, expected, answer)
  {
    if t in d.ops {
      SettlingKeepsOthers(d, u, t, expected, answer);
      hide SettledQuietly, Links;
    } else {
      hide PayloadSettledQuietly, Links, MovedProblem;
      NoNewOperations(d, u, expected, answer);
    }
  }

  lemma NoNewOperations(d: Disk, u: Token, expected: Option<Expected>, answer: Answer)
    requires u in d.ops
    ensures SettledQuietly(d, u, RecordOf(d, u), expected, answer).0.ops.Keys <= d.ops.Keys
  {
    hide MovedProblem, Links;
  }

  lemma SettlingKeepsDisk(d: Disk, u: Token, expected: Option<Expected>, answer: Answer)
    requires DiskOk(d) && u in d.ops
    ensures DiskOk(SettledQuietly(d, u, RecordOf(d, u), expected, answer).0)
  {
    hide DiskOk, Links, MovedProblem;
    ClosedKeepsDisk(d, u);
    if d.ops[u].payload.Some? {
      UnlinkedDisk(d, u);
      ClosedKeepsDisk(Unlinked(d, u), u);
      if d.home.None? {
        PutBackDisk(d, u);
        ClosedKeepsDisk(PutBack(d, u), u);
      }
    }
  }

  lemma ClosedKeepsDisk(d: Disk, u: Token)
    requires DiskOk(d) && u in d.ops
    ensures DiskOk(ClosedQuietly(d, u))
    ensures forall o :: Links(ClosedQuietly(d, u), o) == Links(d, o)
  {
    var n := ClosedQuietly(d, u);
    forall o ensures Links(n, o) == Links(d, o) {
      EmptyOperationLinks(d, n, o);
    }
    hide Links;
    FewerLinksOk(d, n);
  }

  /** After one quiet recovery every operation of the name is gone or kept for a stated reason. */
  lemma {:induction false} RecoverySettlesAll(d: Disk, tokens: seq<Token>, expected: Option<Expected>, answer: Answer)
    requires DiskOk(d)
    ensures var n := RecoveredQuietly(d, tokens, expected, answer).0;
            DiskOk(n) && forall t :: t in tokens ==> SettledFor(n, t, expected, answer)
  {
    hide DiskOk, SettledFor, SettledQuietly;
    if tokens != [] {
      var last, rest := tokens[|tokens| - 1], tokens[..|tokens| - 1];
      RecoverySettlesAll(d, rest, expected, answer);
      var before := RecoveredQuietly(d, rest, expected, answer).0;
      var n := RecoveredQuietly(d, tokens, expected, answer).0;
      assert forall t :: t in tokens <==> t in rest || t == last by { assert tokens == rest + [last]; }
      if last in before.ops {
        SettlingKeepsDisk(before, last, expected, answer);
        SettlingSettles(before, last, expected, answer);
        forall t | t in rest && t != last ensures SettledFor(n, t, expected, answer) {
          SettlingKeepsReasons(before, last, t, expected, answer);
        }
      } else {
        GoneIsSettled(before, last, expected, answer);
      }
    }
  }

  lemma GoneIsSettled(d: Disk, t: Token, expected: Option<Expected>, answer: Answer)
    requires t !in d.ops
    ensures SettledFor(d, t, expected, answer)
  {
  }

  /** A settled disk is a fixed point: recovering it again changes nothing and reports every operation as kept. */
  lemma {:induction false} RecoveryIsAFixedPoint(d: Disk, tokens: seq<Token>, expected: Option<Expected>, answer: Answer)
    requires DiskOk(d)
    requires forall t :: t in tokens ==> SettledFor(d, t, expected, answer)
    ensures RecoveredQuietly(d, tokens, expected, answer).0 == d
    ensures forall i :: 0 <= i < |RecoveredQuietly(d, tokens, expected, answer).1| ==>
              RecoveredQuietly(d, tokens, expected, answer).1[i].state.Kept?
  {
    hide SettledQuietly, KeptReason, DiskOk;
    if tokens != [] {
      var last, rest := tokens[|tokens| - 1], tokens[..|tokens| - 1];
      RecoveryIsAFixedPoint(d, rest, expected, answer);
      assert last in tokens;
      if last in d.ops {
        KeptExactly(d, last, expected, answer);
      }
    }
  }

  // -- what a reachable state says ----------------------------------------------------------------------------------

  /** Over every run, every object ever moved aside was returned to the name while it was free, is a payload now with a
      link, or was removed with justification: it is the very object the manifest completed just before its move was made
      of, inspected with one link before and proven with one link after the move, and its inode was allowed last. */
  lemma NothingIsLost(d: Disk, trace: seq<Event>, verified: map<Token, ObjectId>, i: nat)
    requires InOrder(d, trace, verified) && i < |trace| && trace[i].Moved?
    ensures var t, o := trace[i].op, trace[i].file;
            || (t in d.ops && d.ops[t].payload == Some(o) && Links(d, o) >= 1)
            || (exists j :: i < j < |trace| && trace[j] == Returned(t, o, None))
            || (exists j :: i < j < |trace| && trace[j].Removed? && trace[j].op == t && trace[j].file == o &&
                            Justified(trace, j, d.objects))
  {
    hide DiskOk, Links, Held, Owned, Claimed, ClaimedOnce, OwnPayloads, Justified;
    MovedIsAccountedFor(trace, i, d.objects);
    var t, o := trace[i].op, trace[i].file;
    if t in Held(trace) && Held(trace)[t] == o {
      PayloadIsAnObject(d, trace, t, verified);
    } else {
      var j :| i < j < |trace| && Leaves(trace[j], t, o);
      assert LawfulAt(trace, j, d.objects);
      if trace[j].Removed? {
        RemovalIsJustified(trace, j, d.objects);
      }
    }
  }

  /** The bytes claimed are exactly the sizes of distinct objects that have no link left. */
  lemma BytesAreGone(d: Disk, trace: seq<Event>, verified: map<Token, ObjectId>)
    requires InOrder(d, trace, verified)
    ensures Bytes(trace, d.objects) == TotalSize(Claimed(trace), d.objects)
    ensures forall o :: o in Claimed(trace) ==> o in d.objects && Links(d, o) == 0
  {
    BytesAreDistinctSizes(trace, d.objects);
    hide Links, Bytes, Lawful, DiskOk;
  }

  // -- an undisturbed removal ---------------------------------------------------------------------------------------

  /** With nothing interfering, what the name denotes is removed (its name free, no link left, its whole size reported,
      and everything else as it was) if and only if its inode is allowed, it is a single-link file of the expected
      content, and no operation has the new token; otherwise nothing at all changes. */
  lemma QuietRemovalExactly(d: Disk, t: Token, expected: Expected, answer: Answer)
    requires DiskOk(d) && d.home.Some?
    ensures var o := d.home.value;
            var (n, r) := RemovedQuietly(d, t, expected, answer);
            if answer == Allowed && IdentityProblem(d, o, expected) == NoProblem && t !in d.ops
            then r == Removal(d.objects[o].size, NoProblem) && n == d.(home := None) && Links(n, o) == 0
            else r.bytes == 0 && r.problem != NoProblem && n == d
  {
    var o := d.home.value;
    HomeIsAnObject(d);
    if answer == Allowed && IdentityProblem(d, o, expected) == NoProblem && t !in d.ops {
      var record := Manifest(d.objects[o].ino, d.objects[o].size, expected.sha);
      var p := PreparedQuietly(d, t, record);
      EmptyOperationLinks(d, p, o);
      MovedInLinks(p, t, o);
      var m := MovedIn(p, t);
      UnlinkedLinks(m, t, o);
      var u := Unlinked(m, t);
      EmptyOperationLinks(u, ClosedQuietly(u, t), o);
      assert ClosedQuietly(u, t).ops == d.ops;
      assert MovedProblem(m, o, record, Some(expected)) == NoProblem by { hide Links; }
      hide Links;
    }
  }

  // -- what is waited for -------------------------------------------------------------------------------------------

  /** An undisturbed reclaim goes on to a new removal while one of the name's operations still holds a payload. */
  ghost predicate StartsBesideHeld(d: Disk, expected: Expected, ahead: nat, answer: Answer) {
    var (after, settled) := RecoveredQuietly(d, Listed(d.ops.Keys, ahead), Some(expected), answer);
    !Unresolved(settled) && exists u :: u in after.ops && after.ops[u].payload.Some?
  }

  /** Recovering with nothing kept leaves none of the operations it was given. */
  lemma {:induction false} ResolvedAreGone(d: Disk, tokens: seq<Token>, expected: Option<Expected>, answer: Answer)
    requires DiskOk(d)
    ensures var (n, results) := RecoveredQuietly(d, tokens, expected, answer);
            && DiskOk(n) && n.ops.Keys <= d.ops.Keys
            && (!Unresolved(results) ==> forall t :: t in tokens ==> t !in n.ops)
  {
    hide DiskOk, SettledQuietly, Unresolved;
    if tokens != [] {
      var last, rest := tokens[|tokens| - 1], tokens[..|tokens| - 1];
      ResolvedAreGone(d, rest, expected, answer);
      var (before, results) := RecoveredQuietly(d, rest, expected, answer);
      assert forall t :: t in tokens <==> t in rest || t == last by { assert tokens == rest + [last]; }
      if last in before.ops {
        var (after, one) := SettledQuietly(before, last, RecordOf(before, last), expected, answer);
        SettlingKeepsDisk(before, last, expected, answer);
        NoNewOperations(before, last, expected, answer);
        UnresolvedAppend(results, one);
        ResolvedIsGone(before, last, expected, answer);
      }
    }
  }

  lemma ResolvedIsGone(d: Disk, t: Token, expected: Option<Expected>, answer: Answer)
    requires DiskOk(d) && t in d.ops
    ensures var (n, s) := SettledQuietly(d, t, RecordOf(d, t), expected, answer);
            s.state.Kept? || t !in n.ops
  {
    if d.ops[t].payload.Some? {
      hide SettledQuietly, KeptReason;
      KeptExactly(d, t, expected, answer);
    }
  }

  lemma EmptyIsCleared(d: Disk, t: Token, expected: Option<Expected>, answer: Answer)
    requires t in d.ops && d.ops[t].payload.None?
    ensures SettledQuietly(d, t, RecordOf(d, t), expected, answer) ==
              (d.(ops := d.ops - {t}), Settled(Cleared, 0, NoProblem))
  {
  }

  /** Operations that hold nothing are cleared, all of them; clearing reports no bytes and no problem. */
  lemma {:induction false} EmptyAreCleared(d: Disk, tokens: seq<Token>, expected: Option<Expected>, answer: Answer)
    requires forall i, j :: 0 <= i < j < |tokens| ==> tokens[i] != tokens[j]
    requires forall i :: 0 <= i < |tokens| ==> tokens[i] in d.ops && d.ops[tokens[i]].payload.None?
    ensures var (n, results) := RecoveredQuietly(d, tokens, expected, answer);
            && n == d.(ops := d.ops - (set t | t in tokens))
            && !Unresolved(results) && TotalBytes(results) == 0 && Problems(results) == []
  {
    hide Unresolved, SettledQuietly, Problems, TotalBytes;
    CountedNothing([]);
    if tokens == [] {
      assert !Unresolved([]) by { NoneUnresolved(); }
      assert d.ops - {} == d.ops;
    } else {
      var last, rest := tokens[|tokens| - 1], tokens[..|tokens| - 1];
      EmptyAreCleared(d, rest, expected, answer);
      var (before, results) := RecoveredQuietly(d, rest, expected, answer);
      assert tokens == rest + [last] && last !in rest;
      var one := Settled(Cleared, 0, NoProblem);
      EmptyIsCleared(before, last, expected, answer);
      UnresolvedAppend(results, one);
      CountedNothing(results);
      assert before.ops - {last} == d.ops - (set t | t in tokens);
    }
  }

  lemma CountedNothing(results: seq<Settled>)
    ensures TotalBytes([]) == 0 && Problems([]) == []
    ensures var more := results + [Settled(Cleared, 0, NoProblem)];
            TotalBytes(more) == TotalBytes(results) && Problems(more) == Problems(results)
  {
    var one := Settled(Cleared, 0, NoProblem);
    assert (results + [one])[..|results|] == results;
    assert Problems(results) + [] == Problems(results);
  }

  lemma NoneUnresolved()
    ensures !Unresolved([])
  {
  }

  lemma TokensBelow(n: nat) returns (tokens: set<Token>)
    ensures |tokens| == n && forall t: Token :: t in tokens <==> t < n
  {
    tokens := {};
    for i := 0 to n
      invariant |tokens| == i && forall t: Token :: t in tokens <==> t < i
    {
      assert i !in tokens;
      tokens := tokens + {i};
    }
  }

  /** A set's sorted listing names each element once. */
  lemma ListedOnce(ops: set<Token>, i: nat, j: nat)
    requires i < j < |SortedSet(ops, TokenOrder)|
    ensures SortedSet(ops, TokenOrder)[i] != SortedSet(ops, TokenOrder)[j]
  {
    var all := SortedSet(ops, TokenOrder);
    SortedSetElements(ops, TokenOrder);
    hide SortedSet;
    ElementsOnce(all, ops, i, j);
  }

  lemma ElementsOnce(all: seq<Token>, ops: set<Token>, i: nat, j: nat)
    requires multiset(all) == multiset(ops) && i < j < |all|
    ensures all[i] != all[j]
  {
    var rest := all[..i] + all[i + 1..];
    assert all == all[..i] + [all[i]] + all[i + 1..];
    assert multiset(all) == multiset(rest) + multiset{all[i]};
    assert rest[j - 1] == all[j];
    assert all[j] in multiset(rest);
    assert multiset(ops)[all[i]] <= 1;
  }

  /** A disk whose newest operation is past the listing: it holds a payload, the others nothing, and the name denotes
      another file. */
  ghost function CutOff(tokens: set<Token>, held: Token): Disk {
    var file := (ino: nat) => Object(ino, true, 10, 0);
    Disk(map[0 := file(0), 1 := file(1)], Some(1), map[],
         map t | t in tokens :: if t == held then Operation(Written(Manifest(0, 10, None)), Some(0))
                                else Operation(NoManifest, None), {})
  }

  lemma CutOffOk(tokens: set<Token>, held: Token)
    requires held in tokens
    ensures DiskOk(CutOff(tokens, held))
  {
  }

  /** With more operations than the listing has room for, the last one is not listed. */
  lemma LastIsCutOff(n: nat, ahead: nat) returns (tokens: set<Token>, held: Token)
    requires n >= 1 && ahead + n > MAX_OPERATIONS
    ensures |tokens| == n && held in tokens && forall t :: t in tokens ==> t < n
    ensures var listed := Listed(tokens, ahead);
            && (forall i, j :: 0 <= i < j < |listed| ==> listed[i] != listed[j])
            && (forall i :: 0 <= i < |listed| ==> listed[i] in tokens && listed[i] != held)
  {
    hide SortedSet;
    tokens := TokensBelow(n);
    SortedSetElements(tokens, TokenOrder);
    var all := SortedSet(tokens, TokenOrder);
    held := all[n - 1];
    forall i, j | 0 <= i < j < n ensures all[i] != all[j] {
      ListedOnce(tokens, i, j);
    }
    var listed := Listed(tokens, ahead);
    assert |listed| < n && listed <= all;
  }

  /** Past the bound, for every number of operations: on this disk, with the removal allowed and anything expected, the
      reclaim removes the file the name denotes, and reports its size, while an operation it did not list still holds
      its payload. */
  lemma RemovedBesideHeld(n: nat, ahead: nat) returns (d: Disk, held: Token)
    requires n >= 1 && ahead + n > MAX_OPERATIONS
    ensures DiskOk(d) && |d.ops| == n && held in d.ops && d.ops[held].payload.Some? && d.home.Some?
    ensures StartsBesideHeld(d, Expected(None, None), ahead, Allowed)
    ensures var (after, r) := ReclaimedQuietly(d, n, Expected(None, None), ahead, Allowed);
            && r == Reclamation(10, []) && after.home.None? && Links(after, d.home.value) == 0
            && held in after.ops && after.ops[held] == d.ops[held]
  {
    hide Listed, RecoveredQuietly, Unresolved, DiskOk, Links, RemovedQuietly, Problems, TotalBytes;
    var tokens;
    tokens, held := LastIsCutOff(n, ahead);
    d := CutOff(tokens, held);
    assert d.ops.Keys == tokens;
    CutOffOk(tokens, held);
    var (after, settled) := RecoveredQuietly(d, Listed(tokens, ahead), Some(Expected(None, None)), Allowed);
    CutOffRecovered(tokens, held, Listed(tokens, ahead));
    NameIsFree(tokens, held, after, n);
    hide CutOff;
    QuietRemovalExactly(after, n, Expected(None, None), Allowed);
  }

  lemma CutOffRecovered(tokens: set<Token>, held: Token, listed: seq<Token>)
    requires held in tokens && forall i, j :: 0 <= i < j < |listed| ==> listed[i] != listed[j]
    requires forall i :: 0 <= i < |listed| ==> listed[i] in tokens && listed[i] != held
    ensures var d := CutOff(tokens, held);
            var (after, settled) := RecoveredQuietly(d, listed, Some(Expected(None, None)), Allowed);
            && !Unresolved(settled) && TotalBytes(settled) == 0 && Problems(settled) == []
            && DiskOk(after) && after == d.(ops := after.ops) && after.ops.Keys <= tokens && held in after.ops
            && forall t :: t in after.ops ==> after.ops[t] == d.ops[t]
  {
    var d := CutOff(tokens, held);
    CutOffOk(tokens, held);
    hide RecoveredQuietly, Unresolved, DiskOk, Problems, TotalBytes;
    EmptyAreCleared(d, listed, Some(Expected(None, None)), Allowed);
    ResolvedAreGone(d, listed, Some(Expected(None, None)), Allowed);
  }

  lemma NameIsFree(tokens: set<Token>, held: Token, after: Disk, n: nat)
    requires held in tokens && forall t :: t in tokens ==> t < n
    requires var d := CutOff(tokens, held);
             && after == d.(ops := after.ops) && after.ops.Keys <= tokens
             && forall t :: t in after.ops ==> after.ops[t] == d.ops[t]
    ensures after.home == Some(1) && IdentityProblem(after, 1, Expected(None, None)) == NoProblem && n !in after.ops
    ensures after.objects[1].size == 10
  {
    assert Holders(after.ops, 1) == {};
  }

  /** For every number of operations of the name: no disk with so many lets a reclaim start a new removal while one of them
      still holds a payload, if and only if the listing has room for all of them after what comes before. */
  lemma WaitsForAllExactly(n: nat, ahead: nat)
    requires n >= 1
    ensures (forall d, expected, answer :: DiskOk(d) && |d.ops| == n ==> !StartsBesideHeld(d, expected, ahead, answer)) <==>
              ahead + n <= MAX_OPERATIONS
  {
    hide DiskOk, StartsBesideHeld;
    if ahead + n <= MAX_OPERATIONS {
      forall d, expected, answer | DiskOk(d) && |d.ops| == n ensures !StartsBesideHeld(d, expected, ahead, answer) {
        AllListedAreWaitedFor(d, expected, ahead, answer);
      }
    } else {
      var d, held := RemovedBesideHeld(n, ahead);
    }
  }

  lemma AllListedAreWaitedFor(d: Disk, expected: Expected, ahead: nat, answer: Answer)
    requires DiskOk(d) && ahead + |d.ops| <= MAX_OPERATIONS
    ensures !StartsBesideHeld(d, expected, ahead, answer)
  {
    assert |d.ops.Keys| == |d.ops|;
    ListedAll(d.ops.Keys, ahead);
    ResolvedAreGone(d, Listed(d.ops.Keys, ahead), Some(expected), answer);
    hide DiskOk, Listed, RecoveredQuietly, SortedSet;
  }
}
