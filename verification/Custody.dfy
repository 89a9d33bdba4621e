/** The record a cleanup leaves of what it did to objects, and the rules it may never break: what it moved
    aside it either returned, removed after proof, or still holds. */
module Custody {
  import opened Common
  import opened Disk

  /** What may be removed: the exact content when known. */
  datatype Expected = Expected(sha: Option<nat>, size: Option<nat>)
  /** An authority answer: none against it, one that keeps the payload pending, or any other refusal. */
  datatype Answer = Allowed | Unknown | Denied

  /** What the cleanup does that others could notice or lose, and what it established before: asking its authority,
      finding a file single-link and as expected through its descriptor, completing the manifest of it, moving aside,
      returning (with what the name denoted then), proving a payload (with the links it had then), unlinking one, and
      claiming its bytes. */
  datatype Event = Asked(ino: nat, answer: Answer)
                 | Inspected(file: ObjectId, links: nat)
                 | Recorded(op: Token, file: ObjectId, record: Manifest)
                 | Moved(op: Token, file: ObjectId)
                 | Returned(op: Token, file: ObjectId, occupant: Option<ObjectId>)
                 | Proved(op: Token, file: ObjectId, links: nat)
                 | Removed(op: Token, file: ObjectId, record: Manifest, expected: Option<Expected>)
                 | Reclaimed(file: ObjectId)

  predicate Meets(expected: Expected, o: Object) {
    && (expected.sha.Some? ==> o.sha == expected.sha.value)
    && (expected.size.Some? ==> o.size == expected.size.value)
  }

  function HeldAfter(held: map<Token, ObjectId>, e: Event): map<Token, ObjectId> {
    if e.Moved? then held[e.op := e.file]
    else if e.Returned? || e.Removed? then held - {e.op}
    else held
  }

  /** What the cleanup holds in quarantine, by operation. */
  function Held(trace: seq<Event>): map<Token, ObjectId> {
    if trace == [] then map[] else HeldAfter(Held(trace[..|trace| - 1]), trace[|trace| - 1])
  }

  /** The object each operation's newest manifest was made of. */
  function Owned(trace: seq<Event>): map<Token, ObjectId> {
    if trace == [] then map[]
    else
      var e := trace[|trace| - 1];
      var before := Owned(trace[..|trace| - 1]);
      if e.Recorded? then before[e.op := e.file] else before
  }

  predicate Follows(trace: seq<Event>, i: nat, e: Event)
    requires i < |trace|
  {
    i > 0 && trace[i - 1] == e
  }

  /** A manifest is made only of an object just inspected with its inode allowed, single-link, and it is the last thing
      before the move; nothing is moved into an occupied operation, only what an operation holds leaves it, and nothing is
      returned over an occupant. A payload is unlinked only as the very next act after its own inode was allowed, and
      that right after it was proven single-link; it is then the object the operation's manifest was made of, regular,
      of the recorded size, and of the expected content. Bytes are claimed only right after that, for that object. */
  ghost predicate LawfulAt(trace: seq<Event>, i: nat, objects: map<ObjectId, Object>)
    requires i < |trace|
  {
    var held, owned := Held(trace[..i]), Owned(trace[..i]);
    match trace[i]
    case Asked(_, _) => true
    case Inspected(o, links) =>
      o in objects && objects[o].regular && links == 1 && Follows(trace, i, Asked(objects[o].ino, Allowed))
    case Recorded(t, o, record) =>
      && t !in held && o in objects && Follows(trace, i, Inspected(o, 1))
      && objects[o].ino == record.ino && objects[o].size == record.size
    case Moved(t, o) => t !in held && o in objects && i > 0 && trace[i - 1].Recorded? && trace[i - 1].op == t
    case Returned(t, o, occupant) => t in held && held[t] == o && occupant.None?
    case Proved(t, o, links) => t in held && held[t] == o && links == 1
    case Removed(t, o, record, expected) =>
      && t in held && held[t] == o && o in objects && t in owned && owned[t] == o
      && objects[o].regular && objects[o].ino == record.ino && objects[o].size == record.size
      && (expected.Some? ==> Meets(expected.value, objects[o]))
      && Follows(trace, i, Asked(objects[o].ino, Allowed)) && Follows(trace, i - 1, Proved(t, o, 1))
    case Reclaimed(o) => o in objects && i > 0 && trace[i - 1].Removed? && trace[i - 1].file == o
  }

  ghost predicate Lawful(trace: seq<Event>, objects: map<ObjectId, Object>) {
    forall i :: 0 <= i < |trace| ==> LawfulAt(trace, i, objects)
  }

  ghost predicate KeepsObjects(a: map<ObjectId, Object>, b: map<ObjectId, Object>) {
    forall o :: o in a ==> o in b && b[o] == a[o]
  }

  lemma LawfulGrows(trace: seq<Event>, a: map<ObjectId, Object>, b: map<ObjectId, Object>)
    requires Lawful(trace, a) && KeepsObjects(a, b)
    ensures Lawful(trace, b)
  {
    forall i | 0 <= i < |trace| ensures LawfulAt(trace, i, b) {
      assert LawfulAt(trace, i, a);
    }
  }

  lemma LawfulAppend(trace: seq<Event>, e: Event, objects: map<ObjectId, Object>)
    requires Lawful(trace, objects) && LawfulAt(trace + [e], |trace|, objects)
    ensures Lawful(trace + [e], objects)
  {
    forall i | 0 <= i < |trace| + 1 ensures LawfulAt(trace + [e], i, objects) {
      if i < |trace| {
        assert LawfulAt(trace, i, objects);
        assert (trace + [e])[..i] == trace[..i];
      }
    }
  }

  lemma HeldAppend(trace: seq<Event>, e: Event)
    ensures Held(trace + [e]) == HeldAfter(Held(trace), e)
    ensures Owned(trace + [e]) == if e.Recorded? then Owned(trace)[e.op := e.file] else Owned(trace)
  {
    assert (trace + [e])[..|trace|] == trace;
  }

  // -- bytes -----------------------------------------------------------------------------------------------------

  function Size(objects: map<ObjectId, Object>, o: ObjectId): nat {
    if o in objects then objects[o].size else 0
  }

  /** The bytes claimed over a trace. */
  function Bytes(trace: seq<Event>, objects: map<ObjectId, Object>): nat {
    if trace == [] then 0
    else
      var e := trace[|trace| - 1];
      Bytes(trace[..|trace| - 1], objects) + if e.Reclaimed? then Size(objects, e.file) else 0
  }

  lemma BytesAppend(trace: seq<Event>, e: Event, objects: map<ObjectId, Object>)
    ensures Bytes(trace + [e], objects) == Bytes(trace, objects) + if e.Reclaimed? then Size(objects, e.file) else 0
  {
    assert (trace + [e])[..|trace|] == trace;
  }

  lemma {:induction false} BytesKept(trace: seq<Event>, a: map<ObjectId, Object>, b: map<ObjectId, Object>)
    requires Lawful(trace, a) && KeepsObjects(a, b)
    ensures Bytes(trace, a) == Bytes(trace, b)
  {
    if trace != [] {
      var before := trace[..|trace| - 1];
      forall i | 0 <= i < |before| ensures LawfulAt(before, i, a) {
        assert LawfulAt(trace, i, a);
        assert before[..i] == trace[..i];
      }
      BytesKept(before, a, b);
      assert LawfulAt(trace, |trace| - 1, a);
    }
  }

  /** How many payloads were returned to their name over a trace. */
  function Returns(trace: seq<Event>): nat {
    if trace == [] then 0
    else Returns(trace[..|trace| - 1]) + if trace[|trace| - 1].Returned? then 1 else 0
  }

  lemma ReturnsAppend(trace: seq<Event>, e: Event)
    ensures Returns(trace + [e]) == Returns(trace) + if e.Returned? then 1 else 0
  {
    assert (trace + [e])[..|trace|] == trace;
  }

  /** Counting tells whether any was. */
  lemma {:induction false} ReturnsTell(before: seq<Event>, after: seq<Event>)
    requires before <= after
    ensures Returns(after) >= Returns(before)
    ensures Returns(after) == Returns(before) <==> forall k :: |before| <= k < |after| ==> !after[k].Returned?
    decreases |after|
  {
    if |before| == |after| {
      assert before == after;
    } else {
      var shorter := after[..|after| - 1];
      ReturnsTell(before, shorter);
      assert Returns(after) == Returns(shorter) + if after[|after| - 1].Returned? then 1 else 0;
      if forall k :: |before| <= k < |after| ==> !after[k].Returned? {
        assert !after[|after| - 1].Returned?;
      }
    }
  }

  function Claimed(trace: seq<Event>): set<ObjectId> {
    set i | 0 <= i < |trace| && trace[i].Reclaimed? :: trace[i].file
  }

  ghost predicate ClaimedOnce(trace: seq<Event>) {
    forall i, j :: 0 <= i < j < |trace| && trace[i].Reclaimed? && trace[j].Reclaimed? ==> trace[i].file != trace[j].file
  }

  ghost function TotalSize(s: set<ObjectId>, objects: map<ObjectId, Object>): nat {
    if s == {} then 0
    else
      var o :| o in s;
      Size(objects, o) + TotalSize(s - {o}, objects)
  }

  lemma {:induction false} TotalSizeWith(s: set<ObjectId>, o: ObjectId, objects: map<ObjectId, Object>)
    requires o in s
    ensures TotalSize(s, objects) == Size(objects, o) + TotalSize(s - {o}, objects)
    decreases s
  {
    var x :| x in s && TotalSize(s, objects) == Size(objects, x) + TotalSize(s - {x}, objects);
    if x != o {
      TotalSizeWith(s - {x}, o, objects);
      TotalSizeWith(s - {o}, x, objects);
      assert s - {x} - {o} == s - {o} - {x};
    }
  }

  /** No object is counted twice: the bytes claimed are exactly the sizes of the distinct objects claimed. */
  lemma {:induction false} BytesAreDistinctSizes(trace: seq<Event>, objects: map<ObjectId, Object>)
    requires ClaimedOnce(trace)
    ensures Bytes(trace, objects) == TotalSize(Claimed(trace), objects)
  {
    if trace != [] {
      var before, e := trace[..|trace| - 1], trace[|trace| - 1];
      BytesAreDistinctSizes(before, objects);
      if e.Reclaimed? {
        assert e.file !in Claimed(before);
        assert Claimed(trace) == Claimed(before) + {e.file} by {
          assert trace[|trace| - 1].file in Claimed(trace);
          forall o | o in Claimed(before) ensures o in Claimed(trace) {
            var i :| 0 <= i < |before| && before[i].Reclaimed? && before[i].file == o;
            assert trace[i].file == o;
          }
        }
        TotalSizeWith(Claimed(trace), e.file, objects);
        assert Claimed(trace) - {e.file} == Claimed(before);
      } else {
        assert Claimed(trace) == Claimed(before) by {
          forall o | o in Claimed(before) ensures o in Claimed(trace) {
            var i :| 0 <= i < |before| && before[i].Reclaimed? && before[i].file == o;
            assert trace[i].file == o;
          }
        }
      }
    }
  }

  // -- conservation ----------------------------------------------------------------------------------------------

  predicate Leaves(e: Event, t: Token, o: ObjectId) {
    (e.Returned? || e.Removed?) && e.op == t && e.file == o
  }

  /** Where an object moved aside went: returned or removed later, or still held. */
  ghost predicate Settles(trace: seq<Event>, i: nat, t: Token, o: ObjectId) {
    || (t in Held(trace) && Held(trace)[t] == o)
    || (exists j :: i < j < |trace| && Leaves(trace[j], t, o))
  }

  lemma LawfulPrefix(trace: seq<Event>, e: Event, objects: map<ObjectId, Object>)
    requires Lawful(trace + [e], objects)
    ensures Lawful(trace, objects) && LawfulAt(trace + [e], |trace|, objects)
  {
    forall k | 0 <= k < |trace| ensures LawfulAt(trace, k, objects) {
      assert LawfulAt(trace + [e], k, objects);
      assert trace[..k] == (trace + [e])[..k];
    }
  }

  lemma SettlesStill(before: seq<Event>, e: Event, i: nat, t: Token, o: ObjectId, objects: map<ObjectId, Object>)
    requires i < |before| && Settles(before, i, t, o) && LawfulAt(before + [e], |before|, objects)
    ensures Settles(before + [e], i, t, o)
  {
    var trace := before + [e];
    HeldAppend(before, e);
    assert trace[..|before|] == before;
    hide Held;
    if t in Held(before) && Held(before)[t] == o {
      assert trace[|before|] == e;
    } else {
      var j :| i < j < |before| && Leaves(before[j], t, o);
      assert trace[j] == before[j];
    }
  }

  /** Nothing moved aside is ever lost. */
  lemma {:induction false} MovedIsAccountedFor(trace: seq<Event>, i: nat, objects: map<ObjectId, Object>)
    requires Lawful(trace, objects) && i < |trace| && trace[i].Moved?
    ensures Settles(trace, i, trace[i].op, trace[i].file)
  {
    hide Lawful, LawfulAt, Held, Settles;
    var before, e := trace[..|trace| - 1], trace[|trace| - 1];
    assert trace == before + [e];
    LawfulPrefix(before, e, objects);
    if i < |before| {
      MovedIsAccountedFor(before, i, objects);
      SettlesStill(before, e, i, trace[i].op, trace[i].file, objects);
    } else {
      JustMoved(before, e);
    }
  }

  lemma JustMoved(before: seq<Event>, e: Event)
    requires e.Moved?
    ensures Settles(before + [e], |before|, e.op, e.file)
  {
    HeldAppend(before, e);
  }

  // -- what a removal was preceded by ------------------------------------------------------------------------------

  lemma {:induction false} LawfulUpTo(trace: seq<Event>, j: nat, objects: map<ObjectId, Object>)
    requires Lawful(trace, objects) && j <= |trace|
    ensures Lawful(trace[..j], objects)
  {
    forall k | 0 <= k < j ensures LawfulAt(trace[..j], k, objects) {
      assert LawfulAt(trace, k, objects);
      assert trace[..j][..k] == trace[..k];
    }
  }

  /** At `i` the payload `o` of operation `t` was moved aside, right after the manifest made of `own` was complete, which
      was right after `own` was inspected and had one link. */
  predicate MovedAt(trace: seq<Event>, i: nat, t: Token, o: ObjectId, own: ObjectId) {
    && 2 <= i < |trace| && trace[i] == Moved(t, o)
    && trace[i - 1].Recorded? && trace[i - 1].op == t && trace[i - 1].file == own && trace[i - 2] == Inspected(own, 1)
  }

  /** Whatever an operation holds was moved there by it, and the manifest completed just before that move still is the
      operation's. */
  lemma {:induction false} HeldWasMoved(trace: seq<Event>, t: Token, objects: map<ObjectId, Object>) returns (i: nat)
    requires Lawful(trace, objects) && t in Held(trace)
    ensures t in Owned(trace) && MovedAt(trace, i, t, Held(trace)[t], Owned(trace)[t])
  {
    var before, e := trace[..|trace| - 1], trace[|trace| - 1];
    assert trace == before + [e];
    LawfulPrefix(before, e, objects);
    HeldAppend(before, e);
    if e.Moved? && e.op == t {
      i := |before|;
      assert LawfulAt(trace, i, objects) && LawfulAt(trace, i - 1, objects);
      assert before == before[..i - 1] + [trace[i - 1]];
      HeldAppend(before[..i - 1], trace[i - 1]);
    } else {
      i := HeldWasMoved(before, t, objects);
      assert trace[..|before|] == before;
      hide Held, Owned;
    }
  }

  /** All that was established before the removal at `j`: the object was inspected with one link, then the operation's
      manifest was made of it, then it (and no other object) was moved aside by this operation; since then it was proven
      the manifest's own with one link, and last of all its inode was allowed. */
  ghost predicate Justified(trace: seq<Event>, j: nat, objects: map<ObjectId, Object>) {
    && 2 <= j < |trace| && trace[j].Removed?
    && var t, o := trace[j].op, trace[j].file;
    && (exists i: nat :: i < j - 2 && MovedAt(trace, i, t, o, o))
    && trace[j - 2] == Proved(t, o, 1)
    && o in objects && trace[j - 1] == Asked(objects[o].ino, Allowed)
    && objects[o].regular && (trace[j].expected.Some? ==> Meets(trace[j].expected.value, objects[o]))
  }

  /** Over every run, the only payload ever unlinked is the operation's own: the single-link object its manifest was
      made of, proven again after the move and authorized last. */
  lemma RemovalIsJustified(trace: seq<Event>, j: nat, objects: map<ObjectId, Object>)
    requires Lawful(trace, objects) && j < |trace| && trace[j].Removed?
    ensures Justified(trace, j, objects)
  {
    assert LawfulAt(trace, j, objects);
    LawfulUpTo(trace, j, objects);
    var t, o := trace[j].op, trace[j].file;
    var i := HeldWasMoved(trace[..j], t, objects);
    hide Held, Owned, LawfulAt;
    assert trace[..j][i] == trace[i] && trace[..j][i - 1] == trace[i - 1] && trace[..j][i - 2] == trace[i - 2];
    assert MovedAt(trace, i, t, o, o);
  }
}
