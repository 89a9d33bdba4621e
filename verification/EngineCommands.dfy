/** The playback engine's command directory (isadoraair/engine_commands.py) as a bounded FIFO: any number of
    writers taking one lock in turn, dying anywhere, under a clock that may go back, and one consumer. */
module EngineCommands {
  import opened Common
  import opened Ordering

  /** The committed pattern has exactly twenty digits of sequence. */
  const SEQUENCE_LIMIT: nat := 100000000000000000000

  /** `time.time_ns()`: a signed 64-bit count of nanoseconds. (An instant before the epoch chooses the same name
      as zero does.) */
  const CLOCK_LIMIT: nat := 0x8000_0000_0000_0000
  type Clock = t: nat | t < CLOCK_LIMIT

  type Payload = nat
  /** A file name of the directory: a committed entry, a private temporary, or anything else. */
  datatype Name = Committed(sequence: nat, pid: nat, nonce: nat) | Temp(sequence: nat, pid: nat, nonce: nat)
                | Foreign(id: nat)

  /** `_COMMITTED_RE` and `_TEMP_RE`: a sequence of more than twenty digits matches neither. */
  predicate IsEntry(n: Name) {
    n.Committed? && n.sequence < SEQUENCE_LIMIT
  }

  predicate IsTemp(n: Name) {
    n.Temp? && n.sequence < SEQUENCE_LIMIT
  }

  /** The order of a scan: by sequence, then by name. */
  predicate ScanOrder(a: Name, b: Name) {
    if !a.Committed? || !b.Committed? then !a.Committed?
    else if a.sequence != b.sequence then a.sequence < b.sequence
    else if a.pid != b.pid then a.pid < b.pid
    else a.nonce <= b.nonce
  }

  function Entries(files: map<Name, Payload>): set<Name> {
    set n | n in files && IsEntry(n)
  }

  /** `_scan_committed`. */
  ghost function Scan(files: map<Name, Payload>): seq<Name> {
    SortedSet(Entries(files), ScanOrder)
  }

  function WithoutTemps(files: map<Name, Payload>): map<Name, Payload> {
    map n | n in files && !IsTemp(n) :: files[n]
  }

  // -- writers ------------------------------------------------------------------------------------------------------

  /** Where a writer holding the lock is. */
  datatype Stage = Entered | Cleaned | Chosen(name: Name, payload: Payload) | Staged(name: Name, payload: Payload)

  function TempOf(n: Name): Name
    requires n.Committed?
  {
    Temp(n.sequence, n.pid, n.nonce)
  }

  /** The directory and everyone at it. `writers` are the processes inside the lock; `snapshot` is what the consumer has
      still to take of its last scan. `fifo`, `taken`, `read` and `nonces` are history: the queue in publish order, the entries
      consumed so far in order, what was read of each, and every nonce drawn. */
  datatype Queue = Queue(files: map<Name, Payload>, holder: Option<nat>, writers: map<nat, Stage>, snapshot: seq<Name>,
                         fifo: seq<Name>, taken: seq<Name>, read: map<Name, Payload>, nonces: set<nat>)

  datatype Step =
    | Acquire(writer: nat)
    | Clean(writer: nat)
    | Choose(writer: nat, clock: Clock, nonce: nat, payload: Payload)
    | Write(writer: nat)
    | Rename(writer: nat)
    | Leave(writer: nat)
    | Tidy(temp: Name)
    | TakeSnapshot(limit: Option<nat>)
    | Consume

  ghost function LastSequence(files: map<Name, Payload>): nat {
    var scan := Scan(files);
    if scan == [] || !scan[|scan| - 1].Committed? then 0 else scan[|scan| - 1].sequence
  }

  /** `max(time.time_ns(), prior_sequence + 1)`. */
  ghost function NextSequence(files: map<Name, Payload>, clock: nat): nat {
    var prior := LastSequence(files);
    if clock > prior then clock else prior + 1
  }

  predicate At(q: Queue, w: nat) {
    q.holder == Some(w) && w in q.writers
  }

  function Out(q: Queue, w: nat): Queue {
    q.(holder := None, writers := q.writers - {w})
  }

  /** One step. Dying, failing and finishing all leave through `Leave`; the temporary of a writer that left is removed
      by its own tidying or by the next writer's cleaning. */
  ghost function Next(q: Queue, s: Step, maxDepth: nat): Queue {
    match s
    case Acquire(w) => if q.holder.Some? || w in q.writers then q else q.(holder := Some(w), writers := q.writers[w := Entered])
    case Clean(w) =>
      if !At(q, w) || !q.writers[w].Entered? then q
      else q.(files := WithoutTemps(q.files), writers := q.writers[w := Cleaned])
    case Choose(w, clock, nonce, payload) =>
      if !At(q, w) || !q.writers[w].Cleaned? || nonce in q.nonces then q
      else if |Scan(q.files)| >= maxDepth then Out(q, w)
      else q.(writers := q.writers[w := Chosen(Committed(NextSequence(q.files, clock), w, nonce), payload)],
              nonces := q.nonces + {nonce})
    case Write(w) =>
      if !At(q, w) || !q.writers[w].Chosen? || !q.writers[w].name.Committed? then q
      else q.(files := q.files[TempOf(q.writers[w].name) := q.writers[w].payload],
              writers := q.writers[w := Staged(q.writers[w].name, q.writers[w].payload)])
    case Rename(w) =>
      if !At(q, w) || !q.writers[w].Staged? || !q.writers[w].name.Committed? || TempOf(q.writers[w].name) !in q.files then q
      else
        var n := q.writers[w].name;
        Out(q.(files := (q.files - {TempOf(n)})[n := q.files[TempOf(n)]],
               fifo := if IsEntry(n) then q.fifo + [n] else q.fifo), w)
    case Leave(w) => if !At(q, w) then q else Out(q, w)
    case Tidy(temp) =>
      if !temp.Temp? || (exists w :: w in q.writers && q.writers[w].Staged? && q.writers[w].name.Committed? &&
                                     TempOf(q.writers[w].name) == temp) then q
      else q.(files := q.files - {temp})
    case TakeSnapshot(limit) =>
      if q.holder.Some? then q
      else
        var scan := Scan(q.files);
        q.(files := WithoutTemps(q.files),
           snapshot := if limit.Some? && limit.value < |scan| then scan[..limit.value] else scan)
    case Consume =>
      if q.snapshot == [] then q
      else
        var n := q.snapshot[0];
        q.(files := q.files - {n}, snapshot := q.snapshot[1..],
           fifo := if q.fifo != [] && q.fifo[0] == n then q.fifo[1..] else q.fifo, taken := q.taken + [n],
           read := if n in q.files then q.read[n := q.files[n]] else q.read)
  }

  // -- the abstract queue -------------------------------------------------------------------------------------------

  predicate Ascending(names: seq<Name>) {
    && (forall i :: 0 <= i < |names| ==> IsEntry(names[i]))
    && (forall i, j :: 0 <= i < j < |names| ==> names[i].sequence < names[j].sequence)
  }

  ghost predicate NamesChosen(q: Queue) {
    forall w :: w in q.writers && (q.writers[w].Chosen? || q.writers[w].Staged?) ==>
      && q.writers[w].name.Committed? && q.writers[w].name.nonce in q.nonces
      && q.writers[w].name !in q.files && q.writers[w].name !in q.taken
      && (forall n :: n in q.files && IsEntry(n) ==> n.sequence < q.writers[w].name.sequence)
  }

  /** A staged writer's temporary holds what it is to publish. */
  predicate TempsHold(q: Queue) {
    forall w :: w in q.writers && q.writers[w].Staged? && q.writers[w].name.Committed? ==>
      TempOf(q.writers[w].name) in q.files && q.files[TempOf(q.writers[w].name)] == q.writers[w].payload
  }

  ghost predicate QueueOk(q: Queue, maxDepth: nat) {
    && (forall w :: w in q.writers ==> q.holder == Some(w))
    && (q.holder.Some? ==> q.holder.value in q.writers)
    && NamesChosen(q) && TempsHold(q)
    && (forall w :: w in q.writers && !q.writers[w].Entered? && !q.writers[w].Cleaned? ==> |q.fifo| < maxDepth)
    && Ascending(q.fifo) && |q.fifo| <= maxDepth
    && (forall n :: n in q.fifo <==> n in Entries(q.files))
    && q.snapshot <= q.fifo
    && (forall n :: n in q.files && n.Committed? ==> n.nonce in q.nonces)
    && (forall n :: n in q.taken ==> n.Committed? && n.nonce in q.nonces && n !in q.files)
    && (forall i, j :: 0 <= i < j < |q.taken| ==> q.taken[i] != q.taken[j])
  }

  lemma ScanOrders()
    ensures KeyOrder(ScanOrder)
  {
  }

  /** The sorted scan of a directory in order is the abstract queue, in publish order. */
  lemma ScanIsTheQueue(files: map<Name, Payload>, fifo: seq<Name>)
    requires Ascending(fifo) && (forall n :: n in fifo <==> n in Entries(files))
    ensures Scan(files) == fifo
  {
    var entries := Entries(files);
    ScanOrders();
    assert multiset(fifo) == multiset(entries) by {
      forall n ensures multiset(fifo)[n] == multiset(entries)[n] {
        AscendingOnce(fifo, n);
        assert n in fifo <==> n in entries;
      }
    }
    assert Sorted(fifo, ScanOrder);
    SortByKeeps(Listing(entries), ScanOrder);
    assert forall n :: n in SortBy(Listing(entries), ScanOrder) ==> n in multiset(SortBy(Listing(entries), ScanOrder));
    assert Distinguishes(ScanOrder, entries);
    SortedUnique(SortBy(Listing(entries), ScanOrder), fifo, ScanOrder, entries);
  }

  lemma {:induction false} AscendingOnce(names: seq<Name>, n: Name)
    requires Ascending(names)
    ensures multiset(names)[n] == if n in names then 1 else 0
  {
    if names != [] {
      var rest, last := names[..|names| - 1], names[|names| - 1];
      assert names == rest + [last];
      AscendingOnce(rest, n);
      if n == last {
        assert n !in rest;
      }
    }
  }

  lemma NextIsLarger(q: Queue, maxDepth: nat, clock: nat)
    requires QueueOk(q, maxDepth)
    ensures forall n :: n in q.files && IsEntry(n) ==> n.sequence < NextSequence(q.files, clock)
  {
    ScanIsTheQueue(q.files, q.fifo);
    forall n | n in q.files && IsEntry(n) ensures n.sequence < NextSequence(q.files, clock) {
      assert n in q.fifo;
      var i :| 0 <= i < |q.fifo| && q.fifo[i] == n;
      assert i < |q.fifo| - 1 ==> q.fifo[i].sequence < q.fifo[|q.fifo| - 1].sequence;
    }
  }

  // -- every step ---------------------------------------------------------------------------------------------------

  lemma TempsAreNotEntries(files: map<Name, Payload>)
    ensures Entries(WithoutTemps(files)) == Entries(files)
  {
  }

  lemma ChooseKeeps(q: Queue, maxDepth: nat, w: nat, clock: Clock, nonce: nat, payload: Payload)
    requires QueueOk(q, maxDepth)
    ensures QueueOk(Next(q, Choose(w, clock, nonce, payload), maxDepth), maxDepth)
  {
    QueueFacts(q, maxDepth);
    ScanIsTheQueue(q.files, q.fifo);
    NextIsLarger(q, maxDepth, clock);
    hide Scan, NextSequence, Entries, QueueOk;
    if At(q, w) && q.writers[w].Cleaned? && nonce !in q.nonces {
      if |q.fifo| < maxDepth {
        ChosenKeeps(q, maxDepth, w, NextSequence(q.files, clock), nonce, payload);
      } else {
        OutKeeps(q, maxDepth, w);
      }
    }
  }

  lemma OutKeeps(q: Queue, maxDepth: nat, w: nat)
    requires QueueOk(q, maxDepth) && At(q, w)
    ensures QueueOk(Out(q, w), maxDepth)
  {
    hide Entries;
  }

  lemma ChosenKeeps(q: Queue, maxDepth: nat, w: nat, sequence: nat, nonce: nat, payload: Payload)
    requires QueueOk(q, maxDepth) && At(q, w) && nonce !in q.nonces && |q.fifo| < maxDepth
    requires forall n :: n in q.files && IsEntry(n) ==> n.sequence < sequence
    ensures QueueOk(q.(writers := q.writers[w := Chosen(Committed(sequence, w, nonce), payload)],
                       nonces := q.nonces + {nonce}), maxDepth)
  {
    hide Entries;
  }

  lemma RenameKeeps(q: Queue, maxDepth: nat, w: nat)
    requires QueueOk(q, maxDepth)
    ensures QueueOk(Next(q, Rename(w), maxDepth), maxDepth)
  {
    var n := Next(q, Rename(w), maxDepth);
    if n != q {
      var name := q.writers[w].name;
      assert forall x :: x in Entries(n.files) <==> x in Entries(q.files) || (x == name && IsEntry(name));
      forall i | 0 <= i < |q.fifo| ensures q.fifo[i].sequence < name.sequence {
        assert q.fifo[i] in Entries(q.files);
      }
      assert q.snapshot <= n.fifo;
      hide Entries;
    }
  }

  lemma ConsumeKeeps(q: Queue, maxDepth: nat)
    requires QueueOk(q, maxDepth)
    ensures QueueOk(Next(q, Consume, maxDepth), maxDepth)
    ensures q.snapshot != [] ==> q.fifo != [] && q.snapshot[0] == q.fifo[0]
  {
    if q.snapshot != [] {
      var n, name := Next(q, Consume, maxDepth), q.snapshot[0];
      assert name == q.fifo[0] && name in Entries(q.files);
      assert q.fifo == [name] + q.fifo[1..];
      forall x ensures x in n.fifo <==> x in Entries(n.files) {
        assert x in q.fifo <==> x in Entries(q.files);
      }
      assert n.snapshot <= n.fifo;
      hide Entries;
    }
  }

  lemma SnapshotKeeps(q: Queue, maxDepth: nat, limit: Option<nat>)
    requires QueueOk(q, maxDepth)
    ensures QueueOk(Next(q, TakeSnapshot(limit), maxDepth), maxDepth)
  {
    hide Scan, QueueOk, Entries, WithoutTemps;
    QueueFacts(q, maxDepth);
    ScanIsTheQueue(q.files, q.fifo);
    if q.holder.None? {
      SnapshotState(q, maxDepth, if limit.Some? && limit.value < |q.fifo| then q.fifo[..limit.value] else q.fifo);
    }
  }

  lemma SnapshotState(q: Queue, maxDepth: nat, snapshot: seq<Name>)
    requires QueueOk(q, maxDepth) && q.holder.None? && snapshot <= q.fifo
    ensures QueueOk(q.(files := WithoutTemps(q.files), snapshot := snapshot), maxDepth)
  {
    TempsAreNotEntries(q.files);
    hide Entries;
  }

  lemma CleanKeeps(q: Queue, maxDepth: nat, w: nat)
    requires QueueOk(q, maxDepth)
    ensures QueueOk(Next(q, Clean(w), maxDepth), maxDepth)
  {
    TempsAreNotEntries(q.files);
    hide Entries;
  }

  lemma WriteKeeps(q: Queue, maxDepth: nat, w: nat)
    requires QueueOk(q, maxDepth)
    ensures QueueOk(Next(q, Write(w), maxDepth), maxDepth)
  {
    var n := Next(q, Write(w), maxDepth);
    assert Entries(n.files) == Entries(q.files);
    hide Entries;
  }

  lemma TidyKeeps(q: Queue, maxDepth: nat, temp: Name)
    requires QueueOk(q, maxDepth)
    ensures QueueOk(Next(q, Tidy(temp), maxDepth), maxDepth)
  {
    var n := Next(q, Tidy(temp), maxDepth);
    assert Entries(n.files) == Entries(q.files);
    hide Entries;
  }

  lemma NextKeeps(q: Queue, s: Step, maxDepth: nat)
    requires QueueOk(q, maxDepth)
    ensures QueueOk(Next(q, s, maxDepth), maxDepth)
  {
    match s
    case Acquire(w) => { hide Entries; }
    case Clean(w) => CleanKeeps(q, maxDepth, w);
    case Choose(w, clock, nonce, payload) => ChooseKeeps(q, maxDepth, w, clock, nonce, payload);
    case Write(w) => WriteKeeps(q, maxDepth, w);
    case Rename(w) => RenameKeeps(q, maxDepth, w);
    case Leave(w) => { hide Entries; }
    case Tidy(temp) => TidyKeeps(q, maxDepth, temp);
    case TakeSnapshot(limit) => SnapshotKeeps(q, maxDepth, limit);
    case Consume => ConsumeKeeps(q, maxDepth);
  }

  // -- runs ---------------------------------------------------------------------------------------------------------

  const EMPTY: Queue := Queue(map[], None, map[], [], [], [], map[], {})

  ghost function After(run: seq<Step>, maxDepth: nat): Queue {
    if run == [] then EMPTY else Next(After(run[..|run| - 1], maxDepth), run[|run| - 1], maxDepth)
  }

  /** Entries in the order they were published, visible ones only. */
  ghost function Published(run: seq<Step>, maxDepth: nat): seq<Name> {
    if run == [] then []
    else Published(run[..|run| - 1], maxDepth) + Publishes(After(run[..|run| - 1], maxDepth), run[|run| - 1])
  }

  lemma {:induction false} ReachableOk(run: seq<Step>, maxDepth: nat)
    ensures QueueOk(After(run, maxDepth), maxDepth)
  {
    hide QueueOk, Next;
    if run == [] {
      EmptyIsOk(maxDepth);
    } else {
      ReachableOk(run[..|run| - 1], maxDepth);
      NextKeeps(After(run[..|run| - 1], maxDepth), run[|run| - 1], maxDepth);
    }
  }

  lemma EmptyIsOk(maxDepth: nat)
    ensures QueueOk(EMPTY, maxDepth)
  {
    assert Entries(EMPTY.files) == {};
  }

  /** What one step publishes. */
  function Publishes(q: Queue, s: Step): seq<Name> {
    if s.Rename? && At(q, s.writer) && q.writers[s.writer].Staged? && IsEntry(q.writers[s.writer].name) &&
       TempOf(q.writers[s.writer].name) in q.files
    then [q.writers[s.writer].name] else []
  }

  lemma StepConserves(q: Queue, s: Step, maxDepth: nat)
    requires s.Consume? && q.snapshot != [] ==> q.fifo != [] && q.snapshot[0] == q.fifo[0]
    ensures var n := Next(q, s, maxDepth); n.taken + n.fifo == q.taken + q.fifo + Publishes(q, s)
  {
    hide Scan, Entries, NextSequence;
    if s.Consume? && q.snapshot != [] {
      assert q.fifo == [q.fifo[0]] + q.fifo[1..];
    }
  }

  /** In every run the sorted scan is the queue of what was published and not yet taken, in publish order: entries are
      taken from its head only, in order, each at most once, nothing else leaves it, and it never exceeds its bound. */
  lemma {:induction false} DirectoryIsABoundedFifo(run: seq<Step>, maxDepth: nat)
    ensures var q := After(run, maxDepth);
            && Scan(q.files) == q.fifo && |q.fifo| <= maxDepth
            && Published(run, maxDepth) == q.taken + q.fifo
            && (forall i, j :: 0 <= i < j < |q.taken| ==> q.taken[i] != q.taken[j])
  {
    ReachableOk(run, maxDepth);
    QueueFacts(After(run, maxDepth), maxDepth);
    ScanIsTheQueue(After(run, maxDepth).files, After(run, maxDepth).fifo);
    hide QueueOk, Scan, Entries, Next;
    if run != [] {
      var rest := run[..|run| - 1];
      DirectoryIsABoundedFifo(rest, maxDepth);
      ReachableOk(rest, maxDepth);
      ConsumeKeeps(After(rest, maxDepth), maxDepth);
      StepConserves(After(rest, maxDepth), run[|run| - 1], maxDepth);
    }
  }

  lemma QueueFacts(q: Queue, maxDepth: nat)
    requires QueueOk(q, maxDepth)
    ensures Ascending(q.fifo) && (forall n :: n in q.fifo <==> n in Entries(q.files)) && |q.fifo| <= maxDepth
    ensures forall i, j :: 0 <= i < j < |q.taken| ==> q.taken[i] != q.taken[j]
  {
    hide Entries, NamesChosen;
  }

  /** Cleaning, a writer's or a scan's, removes no file of a writer at work. */
  lemma CleaningSparesWriters(run: seq<Step>, maxDepth: nat, s: Step, v: nat)
    requires s.Clean? || s.TakeSnapshot?
    requires var q := After(run, maxDepth); v in q.writers && q.writers[v].Staged? && q.writers[v].name.Committed?
    ensures var q := After(run, maxDepth);
            TempOf(q.writers[v].name) in q.files ==> TempOf(q.writers[v].name) in Next(q, s, maxDepth).files
  {
    ReachableOk(run, maxDepth);
    hide After, NamesChosen, Entries, Scan;
  }

  /** What the writers and the consumer do in any reachable directory: a writer that holds the lock, has cleaned and finds room
      chooses the clock's number or the one after the last entry, whichever is later, and without room leaves; a scan takes
      the head of the queue, up to its limit, while nobody writes; and consuming takes the first name of the scan. */
  lemma QueueDoes(run: seq<Step>, w: nat, clock: Clock, nonce: nat, payload: Payload, limit: Option<nat>, maxDepth: nat)
    ensures var q := After(run, maxDepth);
            var n := Next(q, Choose(w, clock, nonce, payload), maxDepth);
            var last := if q.fifo == [] || !q.fifo[|q.fifo| - 1].Committed? then 0 else q.fifo[|q.fifo| - 1].sequence;
            if At(q, w) && q.writers[w].Cleaned? && nonce !in q.nonces then
              if |q.fifo| < maxDepth then
                && w in n.writers && n.holder == Some(w) && n.files == q.files
                && n.writers[w] == Chosen(Committed(if clock > last then clock else last + 1, w, nonce), payload)
              else w !in n.writers && n.holder.None? && n.files == q.files
            else n == q
    ensures var q := After(run, maxDepth);
            var n := Next(q, TakeSnapshot(limit), maxDepth);
            if q.holder.Some? then n == q
            else
              && n.snapshot == (if limit.Some? && limit.value < |q.fifo| then q.fifo[..limit.value] else q.fifo)
              && n.fifo == q.fifo && forall f :: f in n.files <==> f in q.files && !IsTemp(f)
    ensures var q := After(run, maxDepth);
            var n := Next(q, Consume, maxDepth);
            if q.snapshot == [] then n == q
            else
              && q.fifo != [] && q.snapshot[0] == q.fifo[0] && n.fifo == q.fifo[1..] && n.snapshot == q.snapshot[1..]
              && n.taken == q.taken + [q.fifo[0]] && n.files == q.files - {q.fifo[0]}
  {
    hide After, QueueOk, Scan, Entries;
    var q := After(run, maxDepth);
    ReachableOk(run, maxDepth);
    QueueFacts(q, maxDepth);
    ScanIsTheQueue(q.files, q.fifo);
    ConsumeKeeps(q, maxDepth);
  }

  // -- what is published can be delivered ---------------------------------------------------------------------------

  /** The step chooses a name: the writer holds the lock, has cleaned, drew a new nonce, and found room. */
  ghost predicate Chooses(q: Queue, s: Step, maxDepth: nat) {
    && s.Choose? && At(q, s.writer) && q.writers[s.writer].Cleaned? && s.nonce !in q.nonces
    && |Scan(q.files)| < maxDepth
  }

  /** The entry before has not run out of the twenty digits of the pattern. */
  ghost predicate DigitsLeft(q: Queue) {
    LastSequence(q.files) < SEQUENCE_LIMIT - 1
  }

  predicate Holds(q: Queue, w: nat, name: Name, payload: Payload) {
    && w in q.writers && (q.writers[w].Chosen? || q.writers[w].Staged?)
    && q.writers[w].name == name && q.writers[w].payload == payload
  }

  /** A nonce is drawn once: whoever holds a name with it after a step held the same name and payload before. */
  lemma HeldNameStays(q: Queue, s: Step, maxDepth: nat, w: nat, name: Name, payload: Payload)
    requires name.Committed? && name.nonce in q.nonces && Holds(Next(q, s, maxDepth), w, name, payload)
    ensures Holds(q, w, name, payload)
  {
    hide Scan, Entries, NextSequence;
  }

  lemma NoncesGrow(q: Queue, s: Step, maxDepth: nat)
    ensures q.nonces <= Next(q, s, maxDepth).nonces
  {
    hide Scan, Entries, NextSequence;
  }

  lemma {:induction false} NoncesStay(run: seq<Step>, more: seq<Step>, maxDepth: nat)
    ensures After(run, maxDepth).nonces <= After(run + more, maxDepth).nonces
  {
    hide Next;
    if more == [] {
      assert run + more == run;
    } else {
      NoncesStay(run, more[..|more| - 1], maxDepth);
      AfterLast(run, more, maxDepth);
      NoncesGrow(After(run + more[..|more| - 1], maxDepth), more[|more| - 1], maxDepth);
    }
  }

  lemma AfterLast(run: seq<Step>, more: seq<Step>, maxDepth: nat)
    requires more != []
    ensures After(run + more, maxDepth) ==
              Next(After(run + more[..|more| - 1], maxDepth), more[|more| - 1], maxDepth)
    ensures Published(run + more, maxDepth) ==
              Published(run + more[..|more| - 1], maxDepth) +
              Publishes(After(run + more[..|more| - 1], maxDepth), more[|more| - 1])
  {
    assert (run + more)[..|run + more| - 1] == run + more[..|more| - 1];
    hide Next, Publishes;
  }

  /** The name staged under a nonce, and its payload, are those its draw chose. */
  lemma {:induction false} StagedAsChosen(run: seq<Step>, mid: seq<Step>, w: nat, name: Name, payload: Payload, maxDepth: nat)
    requires name.Committed? && name.nonce in After(run, maxDepth).nonces
    requires Holds(After(run + mid, maxDepth), w, name, payload)
    ensures Holds(After(run, maxDepth), w, name, payload)
  {
    hide Next;
    if mid == [] {
      assert run + mid == run;
    } else {
      var before := mid[..|mid| - 1];
      AfterLast(run, mid, maxDepth);
      NoncesStay(run, before, maxDepth);
      HeldNameStays(After(run + before, maxDepth), mid[|mid| - 1], maxDepth, w, name, payload);
      StagedAsChosen(run, before, w, name, payload, maxDepth);
    }
  }

  /** An entry no scan matches stays where it is: nothing cleans it, lists it or takes it. */
  ghost predicate Stranded(q: Queue, name: Name) {
    name.Committed? && name in q.files && name !in q.fifo && name !in q.snapshot && name !in q.taken
  }

  lemma StrandedStays(q: Queue, s: Step, maxDepth: nat, name: Name)
    requires QueueOk(q, maxDepth) && Stranded(q, name) && !IsEntry(name)
    ensures Stranded(Next(q, s, maxDepth), name)
  {
    var n := Next(q, s, maxDepth);
    if s.TakeSnapshot? {
      QueueFacts(q, maxDepth);
      ScanIsTheQueue(q.files, q.fifo);
      hide Scan, QueueOk;
    } else {
      hide Scan, Entries, NextSequence;
      if s.Rename? && n != q {
        assert q.writers[s.writer].name !in q.files;
      }
    }
  }

  lemma {:induction false} StrandedForever(run: seq<Step>, more: seq<Step>, name: Name, maxDepth: nat)
    requires Stranded(After(run, maxDepth), name) && !IsEntry(name)
    ensures Stranded(After(run + more, maxDepth), name)
  {
    hide Next, QueueOk, Stranded;
    if more == [] {
      assert run + more == run;
    } else {
      var before := more[..|more| - 1];
      AfterLast(run, more, maxDepth);
      StrandedForever(run, before, name, maxDepth);
      ReachableOk(run + before, maxDepth);
      StrandedStays(After(run + before, maxDepth), more[|more| - 1], maxDepth, name);
    }
  }

  /** The entry holds this payload, or was read with it. */
  predicate Carried(q: Queue, name: Name, payload: Payload) {
    || (name in q.files && q.files[name] == payload)
    || (name in q.taken && name in q.read && q.read[name] == payload)
  }

  lemma CarriedStays(q: Queue, s: Step, maxDepth: nat, name: Name, payload: Payload)
    requires QueueOk(q, maxDepth) && name.Committed? && Carried(q, name, payload)
    ensures Carried(Next(q, s, maxDepth), name, payload)
  {
    hide Scan, Entries, NextSequence;
    if s.Consume? && q.snapshot != [] {
      HeadIsAFile(q, maxDepth);
    }
  }

  lemma HeadIsAFile(q: Queue, maxDepth: nat)
    requires QueueOk(q, maxDepth) && q.snapshot != []
    ensures q.snapshot[0] in q.files && q.snapshot[0] !in q.taken
  {
    assert q.snapshot[0] == q.fifo[0];
    assert q.fifo[0] in Entries(q.files);
  }

  lemma {:induction false} CarriedForever(run: seq<Step>, more: seq<Step>, name: Name, payload: Payload, maxDepth: nat)
    requires name.Committed? && Carried(After(run, maxDepth), name, payload)
    ensures Carried(After(run + more, maxDepth), name, payload)
  {
    hide Next, QueueOk, Carried;
    if more == [] {
      assert run + more == run;
    } else {
      var before := more[..|more| - 1];
      AfterLast(run, more, maxDepth);
      CarriedForever(run, before, name, payload, maxDepth);
      ReachableOk(run + before, maxDepth);
      CarriedStays(After(run + before, maxDepth), more[|more| - 1], maxDepth, name, payload);
    }
  }

  lemma {:induction false} PublishedForever(run: seq<Step>, more: seq<Step>, name: Name, maxDepth: nat)
    requires name in Published(run, maxDepth)
    ensures name in Published(run + more, maxDepth)
  {
    hide Publishes, After;
    if more == [] {
      assert run + more == run;
    } else {
      AfterLast(run, more, maxDepth);
      PublishedForever(run, more[..|more| - 1], name, maxDepth);
    }
  }

  /** The rename of a staged writer makes its name a file; it joins the queue exactly when it is an entry. */
  lemma RenameEffect(q: Queue, w: nat, name: Name, maxDepth: nat)
    requires QueueOk(q, maxDepth) && At(q, w) && q.writers[w].Staged? && q.writers[w].name == name
    ensures var n := Next(q, Rename(w), maxDepth);
            && name in n.files && Publishes(q, Rename(w)) == (if IsEntry(name) then [name] else [])
            && Scan(n.files) == n.fifo && n.fifo == (if IsEntry(name) then q.fifo + [name] else q.fifo)
            && (!IsEntry(name) ==> Stranded(n, name)) && n.files[name] == q.writers[w].payload
  {
    var n := Next(q, Rename(w), maxDepth);
    RenameKeeps(q, maxDepth, w);
    QueueFacts(n, maxDepth);
    QueueFacts(q, maxDepth);
    ScanIsTheQueue(n.files, n.fifo);
    assert name.Committed? && name !in q.files && name !in q.taken;
    if !IsEntry(name) {
      assert name !in Entries(q.files);
      assert q.snapshot <= q.fifo;
      forall i | 0 <= i < |q.snapshot| ensures q.snapshot[i] != name {
        assert q.snapshot[i] == q.fifo[i];
      }
    }
    hide Scan, Entries;
  }

  /** A name published by a rename joins the queue, and is then waiting or taken in every continuation of the run, if
      and only if, when its writer chose it, the newest entry left it twenty digits. Without them it is
      published all the same, but stays in the directory for ever, in no scan and never taken. */
  lemma PublishedExactly(before: seq<Step>, choose: Step, mid: seq<Step>, later: seq<Step>, maxDepth: nat)
    requires Chooses(After(before, maxDepth), choose, maxDepth)
    requires var q := After(before + [choose] + mid, maxDepth);
             At(q, choose.writer) && q.writers[choose.writer].Staged? &&
             q.writers[choose.writer].name.Committed? && q.writers[choose.writer].name.nonce == choose.nonce
    ensures var room := DigitsLeft(After(before, maxDepth));
            var name := Committed(NextSequence(After(before, maxDepth).files, choose.clock), choose.writer, choose.nonce);
            var q := After(before + [choose] + mid, maxDepth);
            var n := After(before + [choose] + mid + [Rename(choose.writer)], maxDepth);
            var l := After(before + [choose] + mid + [Rename(choose.writer)] + later, maxDepth);
            && name in n.files && Scan(n.files) == (if room then Scan(q.files) + [name] else Scan(q.files))
            && (if room then name in l.taken + Scan(l.files)
                else name in l.files && name !in l.taken && name !in Scan(l.files))
  {
    var m, w := After(before, maxDepth), choose.writer;
    var name := Committed(NextSequence(m.files, choose.clock), w, choose.nonce);
    var chosen, staged := before + [choose], before + [choose] + mid;
    var renamed := staged + [Rename(w)];
    var q := After(staged, maxDepth);
    AfterLast(before, [choose], maxDepth);
    assert before + [choose][..0] == before;
    var drawn := q.writers[w].name;
    assert Next(m, choose, maxDepth).writers[w] == Chosen(name, choose.payload) by { hide NextSequence; }
    assert choose.nonce in After(chosen, maxDepth).nonces;
    StagedAsChosen(chosen, mid, w, drawn, q.writers[w].payload, maxDepth);
    assert drawn == name;
    RoomExactly(m, choose.clock, w, choose.nonce);
    ReachableOk(staged, maxDepth);
    AfterLast(staged, [Rename(w)], maxDepth);
    assert staged + [Rename(w)][..0] == staged;
    RenameEffect(q, w, name, maxDepth);
    DirectoryIsABoundedFifo(staged, maxDepth);
    DirectoryIsABoundedFifo(renamed + later, maxDepth);
    hide Next, Scan, NextSequence, LastSequence, Entries, QueueOk;
    if IsEntry(name) {
      assert name in Published(renamed, maxDepth);
      PublishedForever(renamed, later, name, maxDepth);
    } else {
      StrandedForever(renamed, later, name, maxDepth);
    }
  }

  /** What is read is what was sent: from the rename on, in every continuation, the entry holds the payload its writer chose,
      whatever others write, clean, tidy or take; and when it was taken, that payload was read. */
  lemma PayloadIsDelivered(before: seq<Step>, choose: Step, mid: seq<Step>, later: seq<Step>, maxDepth: nat)
    requires Chooses(After(before, maxDepth), choose, maxDepth)
    requires var q := After(before + [choose] + mid, maxDepth);
             At(q, choose.writer) && q.writers[choose.writer].Staged? &&
             q.writers[choose.writer].name.Committed? && q.writers[choose.writer].name.nonce == choose.nonce
    ensures var name := After(before + [choose] + mid, maxDepth).writers[choose.writer].name;
            var l := After(before + [choose] + mid + [Rename(choose.writer)] + later, maxDepth);
            && (name in l.files || name in l.taken) && (name in l.files ==> l.files[name] == choose.payload)
            && (name in l.taken ==> name in l.read && l.read[name] == choose.payload)
  {
    var m, w := After(before, maxDepth), choose.writer;
    var chosen, staged := before + [choose], before + [choose] + mid;
    var renamed := staged + [Rename(w)];
    var q := After(staged, maxDepth);
    var name, payload := q.writers[w].name, q.writers[w].payload;
    AfterLast(before, [choose], maxDepth);
    assert before + [choose][..0] == before;
    ChosenIs(m, choose, maxDepth);
    StagedAsChosen(chosen, mid, w, name, payload, maxDepth);
    ReachableOk(staged, maxDepth);
    AfterLast(staged, [Rename(w)], maxDepth);
    assert staged + [Rename(w)][..0] == staged;
    RenameEffect(q, w, name, maxDepth);
    CarriedForever(renamed, later, name, payload, maxDepth);
    ReachableOk(renamed + later, maxDepth);
    TakenAreGone(After(renamed + later, maxDepth), maxDepth);
    hide Next, Scan, NextSequence, Entries, QueueOk;
  }

  lemma ChosenIs(q: Queue, s: Step, maxDepth: nat)
    requires Chooses(q, s, maxDepth)
    ensures var n := Next(q, s, maxDepth);
            && s.writer in n.writers && n.writers[s.writer].Chosen? && n.writers[s.writer].payload == s.payload
            && s.nonce in n.nonces
  {
  }

  lemma TakenAreGone(q: Queue, maxDepth: nat)
    requires QueueOk(q, maxDepth)
    ensures forall n :: n in q.taken ==> n !in q.files
  {
    hide Entries;
  }

  lemma RoomExactly(q: Queue, clock: Clock, w: nat, nonce: nat)
    ensures IsEntry(Committed(NextSequence(q.files, clock), w, nonce)) <==> DigitsLeft(q)
  {
  }

  // -- the digits never run out -------------------------------------------------------------------------------------

  /** How many names were chosen, or tried to be. */
  function Choices(run: seq<Step>): nat {
    if run == [] then 0 else Choices(run[..|run| - 1]) + if run[|run| - 1].Choose? then 1 else 0
  }

  /** Every name given out so far is below the bound. */
  ghost predicate Below(q: Queue, bound: nat) {
    && (forall n :: n in q.files && n.Committed? ==> n.sequence < bound)
    && (forall w :: w in q.writers && (q.writers[w].Chosen? || q.writers[w].Staged?) && q.writers[w].name.Committed? ==>
          q.writers[w].name.sequence < bound)
  }

  lemma LastIsBelow(q: Queue, maxDepth: nat, bound: nat)
    requires QueueOk(q, maxDepth) && Below(q, bound) && bound > 0
    ensures LastSequence(q.files) < bound
  {
    QueueFacts(q, maxDepth);
    ScanIsTheQueue(q.files, q.fifo);
    if q.fifo != [] {
      assert q.fifo[|q.fifo| - 1] in Entries(q.files);
    }
    hide Scan;
  }

  /** A choice takes the clock or the next number, so each raises the bound by one at most. */
  lemma NextBelow(q: Queue, s: Step, maxDepth: nat, bound: nat)
    requires QueueOk(q, maxDepth) && Below(q, bound) && bound >= CLOCK_LIMIT
    ensures Below(Next(q, s, maxDepth), if s.Choose? then bound + 1 else bound)
  {
    hide Scan, Entries, QueueOk;
    if s.Choose? {
      LastIsBelow(q, maxDepth, bound);
      assert NextSequence(q.files, s.clock) < bound + 1 by { hide Below; }
      hide NextSequence;
      ChooseBelow(q, s, maxDepth, bound);
    } else {
      hide NextSequence;
      OtherBelow(q, s, maxDepth, bound);
    }
  }

  lemma ChooseBelow(q: Queue, s: Step, maxDepth: nat, bound: nat)
    requires s.Choose? && Below(q, bound) && NextSequence(q.files, s.clock) < bound + 1
    ensures Below(Next(q, s, maxDepth), bound + 1)
  {
    hide Scan, Entries, NextSequence;
  }

  lemma OtherBelow(q: Queue, s: Step, maxDepth: nat, bound: nat)
    requires !s.Choose? && Below(q, bound)
    ensures Below(Next(q, s, maxDepth), bound)
  {
    hide Scan, Entries, NextSequence;
  }

  lemma {:induction false} NamesAreBelow(run: seq<Step>, maxDepth: nat)
    ensures Below(After(run, maxDepth), CLOCK_LIMIT + Choices(run))
  {
    hide Next, Below, QueueOk;
    if run == [] {
      EmptyIsBelow();
    } else {
      var before := run[..|run| - 1];
      NamesAreBelow(before, maxDepth);
      ReachableOk(before, maxDepth);
      NextBelow(After(before, maxDepth), run[|run| - 1], maxDepth, CLOCK_LIMIT + Choices(before));
    }
  }

  lemma EmptyIsBelow()
    ensures Below(EMPTY, CLOCK_LIMIT)
  {
  }

  /** No run the clock allows ever runs out of digits: whatever is renamed, unless ninety quintillion names were chosen
      before, joins the end of the scan, and is waiting or taken in every continuation, however long. */
  lemma WhatIsPublishedIsDelivered(run: seq<Step>, w: nat, later: seq<Step>, maxDepth: nat)
    requires Choices(run) < SEQUENCE_LIMIT - CLOCK_LIMIT
    requires var q := After(run, maxDepth); At(q, w) && q.writers[w].Staged?
    ensures var q := After(run, maxDepth);
            var name := q.writers[w].name;
            var n, l := After(run + [Rename(w)], maxDepth), After(run + [Rename(w)] + later, maxDepth);
            && IsEntry(name) && Scan(n.files) == Scan(q.files) + [name]
            && name in l.taken + Scan(l.files)
  {
    var q, renamed := After(run, maxDepth), run + [Rename(w)];
    var name := q.writers[w].name;
    ReachableOk(run, maxDepth);
    NamesAreBelow(run, maxDepth);
    assert name.Committed?;
    assert IsEntry(name);
    AfterLast(run, [Rename(w)], maxDepth);
    assert run + [Rename(w)][..0] == run;
    RenameEffect(q, w, name, maxDepth);
    DirectoryIsABoundedFifo(run, maxDepth);
    DirectoryIsABoundedFifo(renamed + later, maxDepth);
    hide Next, Scan, Entries, QueueOk, Below;
    assert name in Published(renamed, maxDepth);
    PublishedForever(renamed, later, name, maxDepth);
  }

  // -- the loops ----------------------------------------------------------------------------------------------------

  /** `_scan_committed`, entry by entry. */
  method ScanCommitted(files: map<Name, Payload>) returns (entries: seq<Name>)
    ensures entries == Scan(files)
  {
    var listing: seq<Name> := [];
    var rest := files.Keys;
    while rest != {}
      invariant rest <= files.Keys
      invariant multiset(listing) + multiset(Among(rest)) == multiset(Entries(files))
      decreases |rest|
    {
      var n :| n in rest;
      AmongWithout(n, rest);
      rest := rest - {n};
      if IsEntry(n) {
        listing := listing + [n];
      }
    }
    assert Among(rest) == {};
    ScanOrders();
    assert Distinguishes(ScanOrder, Entries(files));
    AnyReadingSortsAlike(Entries(files), listing, ScanOrder);
    entries := SortBy(listing, ScanOrder);
  }

  function Among(names: set<Name>): set<Name> {
    set n | n in names && IsEntry(n)
  }

  lemma AmongWithout(n: Name, names: set<Name>)
    requires n in names
    ensures multiset(Among(names)) == (if IsEntry(n) then multiset{n} else multiset{}) + multiset(Among(names - {n}))
  {
    if IsEntry(n) {
      MultisetWithout(n, Among(names));
      assert Among(names) - {n} == Among(names - {n});
    } else {
      assert Among(names) == Among(names - {n});
    }
  }

  /** `_clean_stale_temps`, entry by entry. */
  method CleanStaleTemps(files: map<Name, Payload>) returns (left: map<Name, Payload>)
    ensures left == WithoutTemps(files)
  {
    left := files;
    var rest := files.Keys;
    while rest != {}
      invariant rest <= files.Keys
      invariant left == map n | n in files && (n in rest || !IsTemp(n)) :: files[n]
      decreases |rest|
    {
      var n :| n in rest;
      rest := rest - {n};
      if IsTemp(n) {
        left := left - {n};
      }
    }
  }
}
