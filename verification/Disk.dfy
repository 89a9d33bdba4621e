/** One shared name, the private quarantine beside it, and the objects behind them: what the kernel does
    and what any other process of the machine may do at any moment (active_messages/quarantine.py). */
module Disk {
  import opened Common

  type ObjectId = nat

  /** A file-system object for its whole life: its inode number, which another object may carry after it is
      gone, and contents nobody edits in place. */
  datatype Object = Object(ino: nat, regular: bool, size: nat, sha: nat)

  datatype Manifest = Manifest(ino: nat, size: nat, sha: Option<nat>)
  datatype ManifestFile = NoManifest | Torn | Written(record: Manifest)
  /** One private operation directory. */
  datatype Operation = Operation(manifest: ManifestFile, payload: Option<ObjectId>)

  /** `home` is what the shared name denotes; `extra` counts an object's links under other names; `pinned`
      objects are held open by the cleanup, which keeps their inode numbers from being reused. */
  datatype Disk = Disk(objects: map<ObjectId, Object>, home: Option<ObjectId>, extra: map<ObjectId, nat>,
                       ops: map<Token, Operation>, pinned: set<ObjectId>)

  function Extra(d: Disk, o: ObjectId): nat {
    if o in d.extra then d.extra[o] else 0
  }

  /** The operations whose payload is the object. */
  function Holders(ops: map<Token, Operation>, o: ObjectId): set<Token> {
    set t | t in ops && ops[t].payload == Some(o)
  }

  /** The object's link count. */
  function Links(d: Disk, o: ObjectId): nat {
    (if d.home == Some(o) then 1 else 0) + |Holders(d.ops, o)| + Extra(d, o)
  }

  predicate Live(d: Disk, o: ObjectId) {
    o in d.objects && (Links(d, o) > 0 || o in d.pinned)
  }

  ghost predicate DiskOk(d: Disk) {
    && (d.home.Some? ==> d.home.value in d.objects)
    && (forall t :: t in d.ops && d.ops[t].payload.Some? ==> d.ops[t].payload.value in d.objects)
    && (forall o :: o in d.extra ==> o in d.objects)
    && d.pinned <= d.objects.Keys
    && (forall a, b :: Live(d, a) && Live(d, b) && d.objects[a].ino == d.objects[b].ino ==> a == b)
  }

  // -- other processes ---------------------------------------------------------------------------------------------

  /** Anything another process can do to the shared name and to other links: create or replace, unlink or rename
      away, link an existing object there or elsewhere, drop another link. It never enters the private directory. */
  datatype Act = Create(id: ObjectId, file: Object) | Unlink | RenameAway | LinkHome(id: ObjectId)
               | LinkElsewhere(id: ObjectId) | DropLink(id: ObjectId)

  predicate InoFree(d: Disk, ino: nat) {
    forall o :: o in d.objects && d.objects[o].ino == ino ==> !Live(d, o)
  }

  function Acted(d: Disk, a: Act): Disk {
    match a
    case Create(id, file) =>
      if id in d.objects || !InoFree(d, file.ino) then d
      else d.(objects := d.objects[id := file], home := Some(id))
    case Unlink => d.(home := None)
    case RenameAway =>
      if d.home.None? then d else d.(home := None, extra := d.extra[d.home.value := Extra(d, d.home.value) + 1])
    case LinkHome(id) => if id in d.objects && Links(d, id) > 0 then d.(home := Some(id)) else d
    case LinkElsewhere(id) =>
      if id in d.objects && Links(d, id) > 0 then d.(extra := d.extra[id := Extra(d, id) + 1]) else d
    case DropLink(id) => if Extra(d, id) > 0 then d.(extra := d.extra[id := Extra(d, id) - 1]) else d
  }

  function ActedAll(d: Disk, acts: seq<Act>): Disk
    decreases |acts|
  {
    if acts == [] then d else ActedAll(Acted(d, acts[0]), acts[1..])
  }

  /** What no act of another process changes: the private directory, what is held open, the objects there were,
      and that an object without a name stays without one. */
  ghost predicate Undisturbed(d: Disk, n: Disk) {
    && n.ops == d.ops && n.pinned == d.pinned
    && (forall o :: o in d.objects ==> o in n.objects && n.objects[o] == d.objects[o])
    && (forall o :: o in d.objects && Links(d, o) == 0 ==> Links(n, o) == 0)
  }

  lemma ActGivesNoLife(d: Disk, a: Act, o: ObjectId)
    requires DiskOk(d) && o in d.objects && Links(d, o) == 0
    ensures Links(Acted(d, a), o) == 0
  {
    hide DiskOk, Holders;
  }

  lemma ActShape(d: Disk, a: Act)
    requires DiskOk(d)
    ensures var n := Acted(d, a);
            && n.ops == d.ops && n.pinned == d.pinned
            && (if a.Create? && n != d then n.objects == d.objects[a.id := a.file] && a.id !in d.objects &&
                                            InoFree(d, a.file.ino)
                else n.objects == d.objects)
            && (n.home.Some? ==> n.home.value in n.objects)
            && (forall o :: o in n.extra ==> o in n.objects)
  {
    hide Links, InoFree;
  }

  lemma ActKeeps(d: Disk, a: Act)
    requires DiskOk(d)
    ensures DiskOk(Acted(d, a)) && Undisturbed(d, Acted(d, a))
  {
    hide Acted, Links;
    var n := Acted(d, a);
    ActShape(d, a);
    forall o | o in d.objects && Links(d, o) == 0 ensures Links(n, o) == 0 {
      ActGivesNoLife(d, a, o);
    }
    forall o | o in d.objects && Live(n, o) ensures Live(d, o) {
    }
    forall x: ObjectId, y: ObjectId | Live(n, x) && Live(n, y) && n.objects[x].ino == n.objects[y].ino ensures x == y {
      assert (x in d.objects ==> Live(d, x)) && (y in d.objects ==> Live(d, y));
    }
  }

  lemma {:induction false} ActsKeep(d: Disk, acts: seq<Act>)
    requires DiskOk(d)
    ensures DiskOk(ActedAll(d, acts)) && Undisturbed(d, ActedAll(d, acts))
    decreases |acts|
  {
    hide Links, Acted;
    if acts != [] {
      ActKeeps(d, acts[0]);
      ActsKeep(Acted(d, acts[0]), acts[1..]);
    }
  }

  // -- what the cleanup asks of the kernel --------------------------------------------------------------------------

  /** `renameat2(RENAME_NOREPLACE)` of the shared name into an operation that holds no payload. */
  function MovedIn(d: Disk, t: Token): Disk
    requires d.home.Some? && t in d.ops && d.ops[t].payload.None?
  {
    d.(home := None, ops := d.ops[t := d.ops[t].(payload := d.home)])
  }

  /** The same rename the other way; it refuses an occupied name. */
  function PutBack(d: Disk, t: Token): Disk
    requires d.home.None? && t in d.ops && d.ops[t].payload.Some?
  {
    d.(home := d.ops[t].payload, ops := d.ops[t := d.ops[t].(payload := None)])
  }

  function Unlinked(d: Disk, t: Token): Disk
    requires t in d.ops && d.ops[t].payload.Some?
  {
    d.(ops := d.ops[t := d.ops[t].(payload := None)])
  }

  /** Moving the name's object into quarantine keeps every link count. */
  lemma MovedInLinks(d: Disk, t: Token, o: ObjectId)
    requires d.home.Some? && t in d.ops && d.ops[t].payload.None?
    ensures Links(MovedIn(d, t), o) == Links(d, o)
  {
    var n := MovedIn(d, t);
    if d.home == Some(o) {
      assert Holders(n.ops, o) == Holders(d.ops, o) + {t} && t !in Holders(d.ops, o);
    } else {
      assert Holders(n.ops, o) == Holders(d.ops, o);
    }
  }

  /** Unlinking takes one link from the payload and none from anything else. */
  lemma UnlinkedLinks(d: Disk, t: Token, o: ObjectId)
    requires t in d.ops && d.ops[t].payload.Some?
    ensures Links(Unlinked(d, t), o) == Links(d, o) - if d.ops[t].payload == Some(o) then 1 else 0
    ensures d.ops[t].payload == Some(o) ==> Links(d, o) >= 1
  {
    var n := Unlinked(d, t);
    if d.ops[t].payload == Some(o) {
      assert Holders(n.ops, o) == Holders(d.ops, o) - {t} && t in Holders(d.ops, o);
    } else {
      assert Holders(n.ops, o) == Holders(d.ops, o);
    }
  }

  lemma PutBackLinks(d: Disk, t: Token, o: ObjectId)
    requires d.home.None? && t in d.ops && d.ops[t].payload.Some?
    ensures Links(PutBack(d, t), o) == Links(d, o)
  {
    UnlinkedLinks(d, t, o);
    assert PutBack(d, t).ops == Unlinked(d, t).ops;
    hide Holders;
  }

  /** Operations without a payload come and go without touching a link. */
  lemma EmptyOperationLinks(d: Disk, n: Disk, o: ObjectId)
    requires n == d.(ops := n.ops)
    requires forall t :: (t in d.ops && d.ops[t].payload.Some?) <==> (t in n.ops && n.ops[t].payload.Some?)
    requires forall t :: t in d.ops && d.ops[t].payload.Some? ==> n.ops[t].payload == d.ops[t].payload
    ensures Links(n, o) == Links(d, o)
  {
    assert Holders(n.ops, o) == Holders(d.ops, o);
  }

  /** A disk that differs only in who holds what, and gives no object a link it did not have, is still in order. */
  lemma FewerLinksOk(d: Disk, n: Disk)
    requires DiskOk(d) && n.objects == d.objects && n.extra == d.extra && n.pinned <= d.pinned
    requires n.home.Some? ==> n.home.value in n.objects
    requires forall t :: t in n.ops && n.ops[t].payload.Some? ==> n.ops[t].payload.value in n.objects
    requires forall o :: o in d.objects ==> Links(n, o) <= Links(d, o)
    ensures DiskOk(n)
  {
    hide Links;
    forall a: ObjectId, b: ObjectId | Live(n, a) && Live(n, b) && n.objects[a].ino == n.objects[b].ino ensures a == b {
      assert Live(d, a) && Live(d, b);
    }
  }
}
