/** What one aggregate airing contains (active_messages/composition.py), the limits an active set
    must fit before it may air, and what a digest of a composition identifies.
    A hash is modelled as the value it digests, so equal digests are equal inputs. */
module Composition {
  import opened Common
  import opened Ordering

  const ABSOLUTE_MAX_ACTIVE_MESSAGES := 24
  const ABSOLUTE_MAX_MESSAGE_SECONDS := 600
  const ABSOLUTE_MAX_AGGREGATE_SECONDS := 1200

  datatype Kind = Urgent | PublicAddress

  /** A production media row. Rows never change, so a reference is modelled by the row itself;
      whether its bytes may still be bound is asked separately each time. `ms` is the decoded
      duration in milliseconds (the column keeps three decimals). */
  datatype Media = Media(id: nat, sha256: nat, ms: Option<int>, provenance: Option<Provenance>)
  datatype MediaRef = MediaRef(id: nat, sha256: nat)
  datatype Pin = Pin(key: nat, reference: nat, media: nat, sha256: nat)

  /** The assembly document a rendition carries: its ordered inputs, the media it derives from and
      whether the render executor made it. */
  datatype Provenance = Provenance(inputs: seq<AssemblyInput>, derivedFrom: nat, executor: bool)
  datatype AssemblyInput = StingerInput(pin: Pin) | MessageInput(part: Part)

  /** One active message as a composition sees it. Nullable columns stay nullable. */
  datatype Component = Component(message: MessageId, kind: Kind, media: Option<Media>, activatedAt: Option<Time>,
                                 contentType: nat, producer: nat)
  /** The audio-determining part of a component. */
  datatype Part = Part(message: MessageId, kind: Kind, media: Option<MediaRef>)

  datatype Snapshot = Snapshot(components: seq<Component>, stinger: Option<Pin>, accountedMs: int)
  datatype Identity = Identity(parts: seq<Part>, stinger: Option<Pin>)
  datatype Digest = Sha256(of: Identity)

  function RefOf(media: Option<Media>): Option<MediaRef> {
    if media.Some? then Some(MediaRef(media.value.id, media.value.sha256)) else None
  }

  function PartOf(c: Component): Part {
    Part(c.message, c.kind, RefOf(c.media))
  }

  function Parts(cs: seq<Component>): seq<Part> {
    seq(|cs|, i requires 0 <= i < |cs| => PartOf(cs[i]))
  }

  // -- order -----------------------------------------------------------------------------------

  function KindRank(kind: Kind): nat {
    if kind.Urgent? then 0 else 1
  }

  predicate EarlierOrSame(a: Option<Time>, b: Option<Time>) {
    a.None? || (b.Some? && a.value <= b.value)
  }

  /** `order_key`: urgent first, then oldest activation, then message UUID. */
  predicate Precedes(a: Component, b: Component) {
    if a.kind != b.kind then KindRank(a.kind) < KindRank(b.kind)
    else if a.activatedAt != b.activatedAt then EarlierOrSame(a.activatedAt, b.activatedAt)
    else a.message <= b.message
  }

  lemma PrecedesOrders()
    ensures KeyOrder(Precedes)
  {
  }

  /** Component rows of one table: a message occurs once. */
  ghost predicate OnePerMessage(cs: set<Component>) {
    forall x, y :: x in cs && y in cs && x.message == y.message ==> x == y
  }

  /** The canonical order of a set of components, whatever order the rows were read in. */
  ghost function Ordered(cs: set<Component>): seq<Component> {
    SortedSet(cs, Precedes)
  }

  lemma OrderedIsTheSet(cs: set<Component>)
    ensures |Ordered(cs)| == |cs| && Sorted(Ordered(cs), Precedes)
    ensures multiset(Ordered(cs)) == multiset(cs)
    ensures forall c :: c in Ordered(cs) <==> c in cs
  {
    PrecedesOrders();
    SortedSetElements(cs, Precedes);
  }

  // -- accounted airtime --------------------------------------------------------------------------

  function Ms(c: Component): int {
    if c.media.Some? then c.media.value.ms.GetOr(0) else 0
  }

  function Total(cs: seq<Component>): int {
    if cs == [] then 0 else Ms(cs[0]) + Total(cs[1..])
  }

  predicate HasUrgent(cs: seq<Component>) {
    exists i :: 0 <= i < |cs| && cs[i].kind.Urgent?
  }

  /** `accounted_seconds`: every component, plus the stinger when an urgent component brings it in. */
  function AccountedMs(cs: seq<Component>, stingerMs: Option<int>): int {
    Total(cs) + if stingerMs.Some? && HasUrgent(cs) then stingerMs.value else 0
  }

  lemma {:induction false} TotalOfSorted(cs: seq<Component>)
    ensures Total(SortBy(cs, Precedes)) == Total(cs)
  {
    if cs != [] {
      TotalOfSorted(cs[1..]);
      TotalOfInsert(cs[0], SortBy(cs[1..], Precedes));
    }
  }

  lemma {:induction false} TotalOfInsert(x: Component, s: seq<Component>)
    ensures Total(Insert(x, s, Precedes)) == Ms(x) + Total(s)
  {
    if s != [] && !Precedes(x, s[0]) {
      TotalOfInsert(x, s[1..]);
    }
  }

  lemma HasUrgentOfElements(a: seq<Component>, b: seq<Component>)
    requires multiset(a) == multiset(b)
    ensures HasUrgent(a) == HasUrgent(b)
  {
    forall x ensures x in a <==> x in b {
      assert x in a <==> x in multiset(a);
      assert x in b <==> x in multiset(b);
    }
    if HasUrgent(a) {
      var i :| 0 <= i < |a| && a[i].kind.Urgent?;
      assert a[i] in b;
    }
    if HasUrgent(b) {
      var i :| 0 <= i < |b| && b[i].kind.Urgent?;
      assert b[i] in a;
    }
  }

  /** Any reading of a set sorts to `Ordered` and accounts for the same airtime. */
  lemma ReadingIsOrdered(cs: set<Component>, reading: seq<Component>, stingerMs: Option<int>)
    requires OnePerMessage(cs) && multiset(reading) == multiset(cs)
    ensures SortBy(reading, Precedes) == Ordered(cs)
    ensures |reading| == |cs| == |Ordered(cs)|
    ensures HasUrgent(reading) == HasUrgent(Ordered(cs))
    ensures AccountedMs(reading, stingerMs) == AccountedMs(Ordered(cs), stingerMs)
  {
    PrecedesOrders();
    SortsToOrdered(cs, reading);
    TotalOfSorted(reading);
    OrderedIsTheSet(cs);
    SortByKeeps(reading, Precedes);
    HasUrgentOfElements(reading, Ordered(cs));
  }

  // -- building a snapshot --------------------------------------------------------------------------

  datatype BuildResult = Built(snapshot: Snapshot) | NothingActive | TooManyComponents

  /** `composition.build` over one reading of the active rows. */
  function Build(reading: seq<Component>, pin: Option<Pin>, stingerMs: Option<int>): BuildResult {
    var components := SortBy(reading, Precedes);
    if components == [] then NothingActive
    else if |components| > ABSOLUTE_MAX_ACTIVE_MESSAGES then TooManyComponents
    else
      var urgent := HasUrgent(components);
      var used := urgent && pin.Some? && stingerMs.Some?;
      Built(Snapshot(components, if urgent then pin else None,
                     AccountedMs(components, if used then stingerMs else None)))
  }

  function IdentityOf(s: Snapshot): Identity {
    Identity(Parts(s.components), s.stinger)
  }

  function DigestOf(s: Snapshot): Digest {
    Sha256(IdentityOf(s))
  }

  /** Building is a function of the set of rows: every permutation gives the same snapshot. */
  lemma BuildIgnoresReadingOrder(cs: set<Component>, a: seq<Component>, b: seq<Component>,
                                 pin: Option<Pin>, stingerMs: Option<int>)
    requires OnePerMessage(cs) && multiset(a) == multiset(cs) && multiset(b) == multiset(cs)
    ensures Build(a, pin, stingerMs) == Build(b, pin, stingerMs)
  {
    ReadingIsOrdered(cs, a, stingerMs);
    ReadingIsOrdered(cs, b, stingerMs);
  }

  // -- what a digest identifies ---------------------------------------------------------------------

  /** A component without what the digest ignores: display columns, producer and measured duration. */
  function Line(c: Component): Component {
    c.(media := (if c.media.Some? then Some(c.media.value.(ms := None, provenance := None)) else None),
       contentType := 0, producer := 0)
  }

  function Lines(cs: seq<Component>): seq<Component> {
    seq(|cs|, i requires 0 <= i < |cs| => Line(cs[i]))
  }

  lemma {:induction false} LinesOfInsert(x: Component, s: seq<Component>)
    ensures Lines(Insert(x, s, Precedes)) == Insert(Line(x), Lines(s), Precedes)
  {
    if s != [] && !Precedes(x, s[0]) {
      LinesOfInsert(x, s[1..]);
      assert Lines(s)[1..] == Lines(s[1..]);
    }
  }

  lemma {:induction false} LinesOfSorted(s: seq<Component>)
    ensures Lines(SortBy(s, Precedes)) == SortBy(Lines(s), Precedes)
  {
    if s != [] {
      LinesOfSorted(s[1..]);
      LinesOfInsert(s[0], SortBy(s[1..], Precedes));
      assert Lines(s)[1..] == Lines(s[1..]);
    }
  }

  function PartSet(cs: set<Component>): set<Part> {
    set c | c in cs :: PartOf(c)
  }

  function LineSet(cs: set<Component>): set<Component> {
    set c | c in cs :: Line(c)
  }

  ghost predicate SameActivations(a: set<Component>, b: set<Component>) {
    forall x, y :: x in a && y in b && x.message == y.message ==> x.activatedAt == y.activatedAt
  }

  lemma LineSetWithout(x: Component, cs: set<Component>)
    requires OnePerMessage(cs) && x in cs
    ensures Line(x) !in LineSet(cs - {x})
    ensures LineSet(cs) == {Line(x)} + LineSet(cs - {x})
  {
    forall c | c in cs - {x} ensures Line(c) != Line(x) {
      assert c.message != x.message;
    }
    forall l | l in LineSet(cs) ensures l in {Line(x)} + LineSet(cs - {x}) {
      var c :| c in cs && Line(c) == l;
      assert c == x || c in cs - {x};
    }
  }

  lemma LinesCons(s: seq<Component>)
    requires s != []
    ensures multiset(Lines(s)) == multiset{Line(s[0])} + multiset(Lines(s[1..]))
  {
    assert Lines(s) == [Line(s[0])] + Lines(s[1..]);
  }

  lemma {:induction false} LinesMultiset(s: seq<Component>, cs: set<Component>)
    requires OnePerMessage(cs) && multiset(s) == multiset(cs)
    ensures multiset(Lines(s)) == multiset(LineSet(cs))
  {
    if s == [] {
      assert |multiset(cs)| == |multiset(s)|;
    } else {
      var x, rest := s[0], cs - {s[0]};
      assert x in multiset(s);
      MultisetTail(s, cs);
      LinesMultiset(s[1..], rest);
      LinesCons(s);
      LineSetWithout(x, cs);
      assert multiset(LineSet(cs)) == multiset{Line(x)} + multiset(LineSet(rest)) by {
        MultisetWithout(Line(x), LineSet(cs));
        assert LineSet(cs) - {Line(x)} == LineSet(rest);
      }
    }
  }

  lemma SameLinesSameParts(a: seq<Component>, b: seq<Component>)
    requires Lines(a) == Lines(b)
    ensures Parts(a) == Parts(b)
  {
    assert |Lines(a)| == |a| && |Lines(b)| == |b|;
    forall i | 0 <= i < |a| ensures PartOf(a[i]) == PartOf(b[i]) {
      assert Lines(a)[i] == Lines(b)[i];
    }
  }

  lemma LinesMatch(a: set<Component>, b: set<Component>)
    requires SameActivations(a, b)
    requires PartSet(a) == PartSet(b)
    ensures LineSet(a) == LineSet(b)
  {
    forall c | c in a ensures Line(c) in LineSet(b) {
      assert PartOf(c) in PartSet(b);
      var d :| d in b && PartOf(d) == PartOf(c);
      assert Line(d) == Line(c);
    }
    forall c | c in b ensures Line(c) in LineSet(a) {
      assert PartOf(c) in PartSet(a);
      var d :| d in a && PartOf(d) == PartOf(c);
      assert Line(d) == Line(c);
    }
  }

  lemma LinesAreOnePerMessage(cs: set<Component>)
    requires OnePerMessage(cs)
    ensures OnePerMessage(LineSet(cs))
  {
    forall x, y | x in LineSet(cs) && y in LineSet(cs) && x.message == y.message ensures x == y {
      var c :| c in cs && Line(c) == x;
      var d :| d in cs && Line(d) == y;
      assert c == d;
    }
  }

  /** The lines of the canonical order are the canonical order of the lines. */
  lemma OrderedLines(cs: set<Component>)
    requires OnePerMessage(cs)
    ensures Lines(Ordered(cs)) == Ordered(LineSet(cs))
  {
    hide Lines, LineSet, SortBy, Precedes;
    LinesMultiset(Listing(cs), cs);
    LinesOfSorted(Listing(cs));
    LinesAreOnePerMessage(cs);
    SortsToOrdered(LineSet(cs), Lines(Listing(cs)));
  }

  lemma SortsToOrdered(cs: set<Component>, reading: seq<Component>)
    requires OnePerMessage(cs) && multiset(reading) == multiset(cs)
    ensures SortBy(reading, Precedes) == Ordered(cs)
  {
    PrecedesOrders();
    AnyReadingSortsAlike(cs, reading, Precedes);
  }

  lemma SamePartsSameOrder(a: set<Component>, b: set<Component>)
    requires OnePerMessage(a) && OnePerMessage(b) && SameActivations(a, b)
    requires PartSet(a) == PartSet(b)
    ensures Parts(Ordered(a)) == Parts(Ordered(b))
  {
    LinesMatch(a, b);
    OrderedLines(a);
    OrderedLines(b);
    SameLinesSameParts(Ordered(a), Ordered(b));
  }

  /** Two compositions have the same digest exactly when they contain the same messages with the
      same audio and the same stinger pin: neither durations, names, types, generation nor reading
      order can tell two digests apart, and nothing audible can hide behind one. */
  lemma DigestIdentifiesAggregate(a: set<Component>, b: set<Component>, ra: seq<Component>, rb: seq<Component>,
                                  pa: Option<Pin>, pb: Option<Pin>, ma: Option<int>, mb: Option<int>)
    requires OnePerMessage(a) && OnePerMessage(b) && SameActivations(a, b)
    requires multiset(ra) == multiset(a) && multiset(rb) == multiset(b)
    requires Build(ra, pa, ma).Built? && Build(rb, pb, mb).Built?
    ensures DigestOf(Build(ra, pa, ma).snapshot) == DigestOf(Build(rb, pb, mb).snapshot) <==>
            PartSet(a) == PartSet(b) &&
            Build(ra, pa, ma).snapshot.stinger == Build(rb, pb, mb).snapshot.stinger
  {
    ReadingIsOrdered(a, ra, None);
    ReadingIsOrdered(b, rb, None);
    PartsAreTheSet(a);
    PartsAreTheSet(b);
    if PartSet(a) == PartSet(b) {
      SamePartsSameOrder(a, b);
    }
  }

  lemma PartsAreTheSet(cs: set<Component>)
    ensures (set p | p in Parts(Ordered(cs))) == PartSet(cs)
  {
    OrderedIsTheSet(cs);
    var o := Ordered(cs);
    forall c | c in cs ensures PartOf(c) in Parts(o) {
      var i :| 0 <= i < |o| && o[i] == c;
      assert Parts(o)[i] == PartOf(c);
    }
    forall p | p in Parts(o) ensures p in PartSet(cs) {
      var i :| 0 <= i < |o| && Parts(o)[i] == p;
      assert o[i] in cs;
    }
  }

  // -- eligibility -------------------------------------------------------------------------------------

  datatype Limits = Limits(maxActive: int, maxMessageSeconds: int, maxAggregateSeconds: int)
  datatype Ineligible = TooManyActive | MessageTooLong(message: MessageId) | AggregateTooLong

  predicate MessageFits(c: Component, limits: Limits) {
    && c.media.Some? && c.media.value.ms.Some?
    && 0 < c.media.value.ms.value <= limits.maxMessageSeconds * 1000
  }

  predicate ByMessage(a: Component, b: Component) {
    a.message <= b.message
  }

  function FirstUnfit(cs: seq<Component>, limits: Limits): Option<MessageId> {
    if cs == [] then None
    else if !MessageFits(cs[0], limits) then Some(cs[0].message)
    else FirstUnfit(cs[1..], limits)
  }

  /** `_check_eligible` over one reading of a candidate active set: None when it may air. */
  function CheckEligible(limits: Limits, reading: seq<Component>, stingerMs: Option<int>): Option<Ineligible> {
    var unfit := FirstUnfit(SortBy(reading, ByMessage), limits);
    if |reading| > limits.maxActive then Some(TooManyActive)
    else if unfit.Some? then Some(MessageTooLong(unfit.value))
    else if AccountedMs(reading, stingerMs) > limits.maxAggregateSeconds * 1000 then Some(AggregateTooLong)
    else None
  }

  lemma {:induction false} FirstUnfitFinds(cs: seq<Component>, limits: Limits)
    ensures FirstUnfit(cs, limits).None? <==> forall c :: c in cs ==> MessageFits(c, limits)
  {
    if cs != [] {
      FirstUnfitFinds(cs[1..], limits);
      assert cs == [cs[0]] + cs[1..];
    }
  }

  /** A set is eligible exactly when every limit holds of it. */
  lemma EligibleMeansWithinLimits(limits: Limits, reading: seq<Component>, stingerMs: Option<int>)
    ensures CheckEligible(limits, reading, stingerMs).None? <==>
            |reading| <= limits.maxActive &&
            (forall c :: c in reading ==> MessageFits(c, limits)) &&
            AccountedMs(reading, stingerMs) <= limits.maxAggregateSeconds * 1000
  {
    assert KeyOrder(ByMessage);
    SortByKeeps(reading, ByMessage);
    FirstUnfitFinds(SortBy(reading, ByMessage), limits);
    forall c ensures c in reading <==> c in SortBy(reading, ByMessage) {
      assert c in reading <==> c in multiset(reading);
      assert c in SortBy(reading, ByMessage) <==> c in multiset(SortBy(reading, ByMessage));
    }
  }

  /** The verdict and its report are the same for every reading of the same rows. */
  lemma EligibilityIgnoresReadingOrder(limits: Limits, cs: set<Component>, reading: seq<Component>, stingerMs: Option<int>)
    requires OnePerMessage(cs) && multiset(reading) == multiset(cs)
    ensures CheckEligible(limits, reading, stingerMs) == CheckEligible(limits, Listing(cs), stingerMs)
  {
    hide FirstUnfit, AccountedMs, SortBy, Ordered, HasUrgent;
    ReadingIsOrdered(cs, reading, stingerMs);
    ReadingIsOrdered(cs, Listing(cs), stingerMs);
    assert SortBy(reading, ByMessage) == SortBy(Listing(cs), ByMessage) by { ByMessageSortsAlike(cs, reading); }
  }

  lemma ByMessageSortsAlike(cs: set<Component>, reading: seq<Component>)
    requires OnePerMessage(cs) && multiset(reading) == multiset(cs)
    ensures SortBy(reading, ByMessage) == SortBy(Listing(cs), ByMessage)
  {
    assert KeyOrder(ByMessage) && Distinguishes(ByMessage, cs);
    AnyReadingSortsAlike(cs, reading, ByMessage);
  }

  lemma {:induction false} TotalOfSubset(small: seq<Component>, big: seq<Component>)
    requires multiset(small) <= multiset(big)
    requires forall c :: c in big ==> Ms(c) >= 0
    ensures Total(small) <= Total(big)
    decreases |big|
  {
    if big == [] {
      assert multiset(small) == multiset{};
      assert |multiset(small)| == |small|;
    } else {
      var x := big[0];
      assert big == [x] + big[1..];
      if x in small {
        var i :| 0 <= i < |small| && small[i] == x;
        var without := small[..i] + small[i + 1..];
        assert small == small[..i] + [x] + small[i + 1..];
        assert multiset(without) == multiset(small) - multiset{x};
        TotalOfSubset(without, big[1..]);
        TotalOfSplice(small[..i], x, small[i + 1..]);
      } else {
        assert x !in multiset(small);
        assert multiset(small) <= multiset(big[1..]);
        TotalOfSubset(small, big[1..]);
      }
    }
  }

  lemma {:induction false} TotalOfSplice(a: seq<Component>, x: Component, b: seq<Component>)
    ensures Total(a + [x] + b) == Ms(x) + Total(a + b)
  {
    if a == [] {
      assert a + [x] + b == [x] + b && a + b == b;
    } else {
      TotalOfSplice(a[1..], x, b);
      assert (a + [x] + b)[1..] == a[1..] + [x] + b && (a + b)[1..] == a[1..] + b;
    }
  }

  /** Clearing or expiring messages never makes an eligible set ineligible, whatever stinger duration
      is counted: every subset of an eligible set is eligible. */
  lemma SubsetOfEligibleIsEligible(limits: Limits, big: seq<Component>, small: seq<Component>, stingerMs: Option<int>)
    requires CheckEligible(limits, big, stingerMs).None? && multiset(small) <= multiset(big)
    requires stingerMs.Some? ==> stingerMs.value > 0
    ensures CheckEligible(limits, small, stingerMs).None?
  {
    EligibleMeansWithinLimits(limits, big, stingerMs);
    EligibleMeansWithinLimits(limits, small, stingerMs);
    forall c | c in small ensures c in big {
      assert c in multiset(small) && c in multiset(big);
    }
    assert |small| <= |big| by {
      assert |multiset(small)| <= |multiset(big)| by {
        assert multiset(big) == multiset(small) + (multiset(big) - multiset(small));
      }
    }
    TotalOfSubset(small, big);
    if HasUrgent(small) {
      var i :| 0 <= i < |small| && small[i].kind.Urgent?;
      assert small[i] in big;
    }
  }

  // -- provenance (active_messages/rendering.py) ---------------------------------------------------------

  /** `provenance_inputs`: the frozen stinger pin, when there is one, then every component in order. */
  function FrozenInputs(s: Snapshot): seq<AssemblyInput> {
    (if s.stinger.Some? then [StingerInput(s.stinger.value)] else []) +
    seq(|s.components|, i requires 0 <= i < |s.components| => MessageInput(PartOf(s.components[i])))
  }

  /** `proves`: the rendition's stored provenance is exactly the assembly of this frozen snapshot. */
  predicate Proves(media: Media, s: Snapshot) {
    && s.components != [] && s.components[0].media.Some?
    && media.provenance.Some?
    && media.provenance.value.inputs == FrozenInputs(s)
    && media.provenance.value.derivedFrom == s.components[0].media.value.id
    && media.provenance.value.executor
  }

  /** A rendition proves at most one audible aggregate: two snapshots it proves have one digest. */
  lemma ProvenAggregateIsUnique(media: Media, a: Snapshot, b: Snapshot)
    requires Proves(media, a) && Proves(media, b)
    ensures DigestOf(a) == DigestOf(b)
  {
    var fa, fb := FrozenInputs(a), FrozenInputs(b);
    assert fa == fb;
    assert fa[0].StingerInput? <==> a.stinger.Some?;
    assert fb[0].StingerInput? <==> b.stinger.Some?;
    var k := if a.stinger.Some? then 1 else 0;
    assert |fa| == k + |a.components| && |fb| == k + |b.components|;
    forall i | 0 <= i < |a.components| ensures PartOf(a.components[i]) == PartOf(b.components[i]) {
      assert fa[k + i] == MessageInput(PartOf(a.components[i]));
      assert fb[k + i] == MessageInput(PartOf(b.components[i]));
    }
    assert Parts(a.components) == Parts(b.components);
  }
}
