/** What activation and the three calls that create an airing do, stated on the tables alone: which set of messages fits,
    which alert leads it, what a created airing is made of, and what is answered when none is created. */
module AiringEffects {
  import opened Common
  import opened Ordering
  import opened Composition
  import opened Services
  import opened DomainInvariants
  import opened ServiceEffects

  // -- airtime of a set of rows -------------------------------------------------------------------------------------

  function DurationMs(m: Message): int {
    if m.media.Some? && m.media.value.ms.Some? then m.media.value.ms.value else 0
  }

  /** The summed durations of some messages. */
  ghost function AirtimeMs(rows: map<MessageId, Message>, ids: set<MessageId>): int
    requires ids <= rows.Keys
  {
    if ids == {} then 0
    else
      var m :| m in ids;
      DurationMs(rows[m]) + AirtimeMs(rows, ids - {m})
  }

  lemma {:induction false} AirtimeWith(rows: map<MessageId, Message>, ids: set<MessageId>, m: MessageId)
    requires ids <= rows.Keys && m in ids
    ensures AirtimeMs(rows, ids) == DurationMs(rows[m]) + AirtimeMs(rows, ids - {m})
    decreases ids
  {
    var x :| x in ids && AirtimeMs(rows, ids) == DurationMs(rows[x]) + AirtimeMs(rows, ids - {x});
    if x != m {
      AirtimeWith(rows, ids - {x}, m);
      AirtimeWith(rows, ids - {m}, x);
      assert ids - {x} - {m} == ids - {m} - {x};
    }
  }

  /** The components of some rows. */
  function ComponentsOf(rows: map<MessageId, Message>, ids: set<MessageId>): set<Component>
    requires ids <= rows.Keys
  {
    set m | m in ids :: ComponentOf(m, rows[m])
  }

  /** Reading the components in any order, each once. */
  predicate Reads(rows: map<MessageId, Message>, ids: set<MessageId>, reading: seq<Component>) {
    && ids <= rows.Keys
    && (forall i :: 0 <= i < |reading| ==>
          && reading[i].message in ids
          && reading[i] == ComponentOf(reading[i].message, rows[reading[i].message]))
    && (forall i, j :: 0 <= i < j < |reading| ==> reading[i].message != reading[j].message)
    && (forall m :: m in ids ==> exists i :: 0 <= i < |reading| && reading[i].message == m)
  }

  lemma {:induction false} ReadingCounts(rows: map<MessageId, Message>, ids: set<MessageId>, reading: seq<Component>)
    requires Reads(rows, ids, reading)
    ensures |reading| == |ids| && Total(reading) == AirtimeMs(rows, ids)
  {
    if reading == [] {
      assert ids == {};
    } else {
      var m, rest := reading[0].message, reading[1..];
      assert Reads(rows, ids - {m}, rest) by {
        forall x | x in ids - {m} ensures exists i :: 0 <= i < |rest| && rest[i].message == x {
          var i :| 0 <= i < |reading| && reading[i].message == x;
          assert rest[i - 1].message == x;
        }
      }
      ReadingCounts(rows, ids - {m}, rest);
      AirtimeWith(rows, ids, m);
      assert Ms(reading[0]) == DurationMs(rows[m]);
    }
  }

  lemma ListingReads(rows: map<MessageId, Message>, ids: set<MessageId>, reading: seq<Component>)
    requires ids <= rows.Keys && multiset(reading) == multiset(ComponentsOf(rows, ids))
    ensures Reads(rows, ids, reading)
  {
    var cs := ComponentsOf(rows, ids);
    forall i | 0 <= i < |reading| ensures reading[i] in cs {
      assert reading[i] in multiset(reading);
    }
    forall i, j | 0 <= i < j < |reading| ensures reading[i].message != reading[j].message {
      assert multiset(cs)[reading[i]] <= 1;
      OnceIsOne(reading, i, j);
    }
    forall m | m in ids ensures exists i :: 0 <= i < |reading| && reading[i].message == m {
      assert ComponentOf(m, rows[m]) in cs;
      assert ComponentOf(m, rows[m]) in multiset(reading);
    }
  }

  lemma OnceIsOne(s: seq<Component>, i: nat, j: nat)
    requires i < j < |s| && multiset(s)[s[i]] <= 1
    ensures s[i] != s[j]
  {
    var rest := s[..i] + s[i + 1..];
    assert s == s[..i] + [s[i]] + s[i + 1..];
    assert multiset(s) == multiset(rest) + multiset{s[i]};
    assert rest[j - 1] == s[j];
    assert s[j] in multiset(rest);
  }

  // -- what fits ----------------------------------------------------------------------------------------------------

  /** The alert leads the airing: some message is urgent, the policy names a key, and it can be used now. */
  predicate AlertLeads(policy: Policy, rows: map<MessageId, Message>, ids: set<MessageId>, reading: StingerReading)
    requires ids <= rows.Keys
  {
    && (exists m :: m in ids && rows[m].kind.Urgent?) && policy.stingerKey.Some?
    && reading.StingerUsable? && reading.ms > 0
  }

  /** What the airing of these messages lasts. */
  ghost function AiringMs(policy: Policy, rows: map<MessageId, Message>, ids: set<MessageId>, reading: StingerReading): int
    requires ids <= rows.Keys
  {
    AirtimeMs(rows, ids) + if AlertLeads(policy, rows, ids, reading) then reading.ms else 0
  }

  predicate TooLong(policy: Policy, m: Message) {
    !(m.media.Some? && m.media.value.ms.Some? && 0 < m.media.value.ms.value <= policy.limits.maxMessageSeconds * 1000)
  }

  /** These messages may air together. */
  ghost predicate Fits(policy: Policy, rows: map<MessageId, Message>, ids: set<MessageId>, reading: StingerReading)
    requires ids <= rows.Keys
  {
    && |ids| <= policy.limits.maxActive
    && (forall m :: m in ids ==> !TooLong(policy, rows[m]))
    && AiringMs(policy, rows, ids, reading) <= policy.limits.maxAggregateSeconds * 1000
  }

  lemma UrgentReads(rows: map<MessageId, Message>, ids: set<MessageId>, reading: seq<Component>)
    requires Reads(rows, ids, reading)
    ensures HasUrgent(reading) <==> exists m :: m in ids && rows[m].kind.Urgent?
    ensures AnyUrgent(ComponentsOf(rows, ids)) <==> exists m :: m in ids && rows[m].kind.Urgent?
  {
    if HasUrgent(reading) {
      var i :| 0 <= i < |reading| && reading[i].kind.Urgent?;
      assert rows[reading[i].message].kind.Urgent?;
    }
    if exists m :: m in ids && rows[m].kind.Urgent? {
      var m :| m in ids && rows[m].kind.Urgent?;
      var i :| 0 <= i < |reading| && reading[i].message == m;
      assert reading[i].kind.Urgent?;
      assert ComponentOf(m, rows[m]) in ComponentsOf(rows, ids);
    }
  }

  lemma AlertIsTheStinger(policy: Policy, rows: map<MessageId, Message>, ids: set<MessageId>, reading: StingerReading)
    requires ids <= rows.Keys
    ensures var stinger := StingerFor(policy, ComponentsOf(rows, ids), reading);
            stinger == if AlertLeads(policy, rows, ids, reading) then Some(reading) else None
  {
    var listing := Listing(ComponentsOf(rows, ids));
    ListingReads(rows, ids, listing);
    UrgentReads(rows, ids, listing);
  }

  lemma EachFits(policy: Policy, rows: map<MessageId, Message>, ids: set<MessageId>, reading: seq<Component>)
    requires Reads(rows, ids, reading)
    ensures (forall c :: c in reading ==> MessageFits(c, policy.limits)) <==> (forall m :: m in ids ==> !TooLong(policy, rows[m]))
  {
    if forall c :: c in reading ==> MessageFits(c, policy.limits) {
      forall m | m in ids ensures !TooLong(policy, rows[m]) {
        var i :| 0 <= i < |reading| && reading[i].message == m;
        assert reading[i] in reading;
      }
    }
  }

  lemma AccountedIsAiring(policy: Policy, rows: map<MessageId, Message>, ids: set<MessageId>, reading: StingerReading,
                          listing: seq<Component>)
    requires Reads(rows, ids, listing)
    ensures AccountedMs(listing, StingerMs(StingerFor(policy, ComponentsOf(rows, ids), reading))) ==
              AiringMs(policy, rows, ids, reading)
  {
    UrgentReads(rows, ids, listing);
    ReadingCounts(rows, ids, listing);
    AlertIsTheStinger(policy, rows, ids, reading);
    hide Reads, AirtimeMs, Total, StingerFor, ComponentsOf;
  }

  /** The services' verdict is exactly whether the messages may air together. */
  lemma EligibilityIsFitting(policy: Policy, rows: map<MessageId, Message>, ids: set<MessageId>, reading: StingerReading)
    requires ids <= rows.Keys
    ensures var cs := ComponentsOf(rows, ids);
            Eligibility(policy, cs, StingerFor(policy, cs, reading)).None? <==> Fits(policy, rows, ids, reading)
  {
    var cs := ComponentsOf(rows, ids);
    var listing, ms := Listing(cs), StingerMs(StingerFor(policy, cs, reading));
    ListingReads(rows, ids, listing);
    ReadingCounts(rows, ids, listing);
    AccountedIsAiring(policy, rows, ids, reading, listing);
    hide ComponentsOf, Listing, StingerFor, Reads, AccountedMs, AiringMs;
    EligibleMeansWithinLimits(policy.limits, listing, ms);
    EachFits(policy, rows, ids, listing);
    hide CheckEligible, MessageFits, TooLong, Total, AirtimeMs;
  }

  /** Why a set that does not fit is refused: its number first; then its first message that is too long; else its length. */
  predicate Explains(policy: Policy, rows: map<MessageId, Message>, ids: set<MessageId>, why: Ineligible)
    requires ids <= rows.Keys
  {
    && (why.TooManyActive? <==> |ids| > policy.limits.maxActive)
    && (why.MessageTooLong? ==>
          && why.message in ids && TooLong(policy, rows[why.message])
          && forall m :: m in ids && TooLong(policy, rows[m]) ==> why.message <= m)
    && (why.AggregateTooLong? ==> forall m :: m in ids ==> !TooLong(policy, rows[m]))
  }

  lemma WhyItDoesNotFit(policy: Policy, rows: map<MessageId, Message>, ids: set<MessageId>, reading: StingerReading)
    requires ids <= rows.Keys && !Fits(policy, rows, ids, reading)
    ensures var cs := ComponentsOf(rows, ids);
            var why := Eligibility(policy, cs, StingerFor(policy, cs, reading));
            why.Some? && Explains(policy, rows, ids, why.value)
  {
    var cs := ComponentsOf(rows, ids);
    EligibilityIsFitting(policy, rows, ids, reading);
    ListingReads(rows, ids, Listing(cs));
    VerdictExplains(policy, rows, ids, cs, StingerMs(StingerFor(policy, cs, reading)));
    hide Listing, ComponentsOf, StingerFor, Fits, Reads, Explains, CheckEligible, StingerMs;
  }

  lemma VerdictExplains(policy: Policy, rows: map<MessageId, Message>, ids: set<MessageId>, cs: set<Component>, ms: Option<int>)
    requires ids <= rows.Keys && cs == ComponentsOf(rows, ids)
    ensures var why := CheckEligible(policy.limits, Listing(cs), ms);
            why.Some? ==> Explains(policy, rows, ids, why.value)
  {
    var listing := Listing(cs);
    var sorted := SortBy(listing, ByMessage);
    assert KeyOrder(ByMessage);
    SortByKeeps(listing, ByMessage);
    ListingReads(rows, ids, sorted);
    FirstUnfitIsFirst(policy, rows, ids, sorted);
    ListingReads(rows, ids, listing);
    ReadingCounts(rows, ids, listing);
    hide Listing, ComponentsOf, AirtimeMs, TooLong, Total, SortBy, FirstUnfit, AccountedMs, Reads, ByMessage, Sorted, KeyOrder;
  }

  lemma FirstUnfitIsFirst(policy: Policy, rows: map<MessageId, Message>, ids: set<MessageId>, sorted: seq<Component>)
    requires Reads(rows, ids, sorted) && Sorted(sorted, ByMessage)
    ensures var first := FirstUnfit(sorted, policy.limits);
            && (first.None? ==> forall m :: m in ids ==> !TooLong(policy, rows[m]))
            && (first.Some? ==>
                  && first.value in ids && TooLong(policy, rows[first.value])
                  && forall m :: m in ids && TooLong(policy, rows[m]) ==> first.value <= m)
  {
    FirstUnfitFinds(sorted, policy.limits);
    EachFits(policy, rows, ids, sorted);
    if FirstUnfit(sorted, policy.limits).Some? {
      var k := FirstAt(sorted, policy.limits);
      forall m | m in ids && TooLong(policy, rows[m]) ensures sorted[k].message <= m {
        var i :| 0 <= i < |sorted| && sorted[i].message == m;
        assert !MessageFits(sorted[i], policy.limits);
        assert k < i ==> ByMessage(sorted[k], sorted[i]);
      }
    }
  }

  lemma {:induction false} FirstAt(cs: seq<Component>, limits: Limits) returns (k: nat)
    requires FirstUnfit(cs, limits).Some?
    ensures k < |cs| && !MessageFits(cs[k], limits) && cs[k].message == FirstUnfit(cs, limits).value
    ensures forall i :: 0 <= i < k ==> MessageFits(cs[i], limits)
  {
    if !MessageFits(cs[0], limits) {
      k := 0;
    } else {
      var j := FirstAt(cs[1..], limits);
      k := j + 1;
    }
  }

  // -- activation ---------------------------------------------------------------------------------------------------

  /** The producer's other ACTIVE messages of the same exact type. */
  function Replaced(d: Domain, id: MessageId): set<MessageId>
    requires id in d.messages
  {
    set m | m in d.messages && m != id && d.messages[m].state.Active? &&
            d.messages[m].producer == d.messages[id].producer && d.messages[m].contentType == d.messages[id].contentType
  }

  predicate MayPublish(actor: Actor, m: Message, type_: TypeFacts) {
    actor.control || (actor.produce && m.producer == actor.id && type_.assignee && type_.selfPublish)
  }

  /** The draft is complete, of a usable type, not expired, and its audio may be bound now. */
  predicate Publishable(m: Message, type_: TypeFacts, binding: Binding, now: Time) {
    && m.state.Prepared? && type_.enabled && type_.mode == Some(m.kind) && m.media.Some? && binding.Bindable?
    && (m.expiresAt.Some? ==> m.expiresAt.value > now)
  }

  /** The active set it would leave. */
  function WouldBeActive(d: Domain, id: MessageId): set<MessageId>
    requires id in d.messages
  {
    ActiveIds(d) - Replaced(d, id) + {id}
  }

  predicate ActivatedRows(d: Domain, n: Domain, id: MessageId, type_: TypeFacts, now: Time)
    requires id in d.messages
  {
    && NewComposition(d, n, now) && SameHistory(d, n) && n.messages.Keys == d.messages.Keys
    && n.policy == d.policy.(generation := n.policy.generation)
    && n.messages[id] == d.messages[id].(state := Active, activatedAt := Some(now), nextDueAt := Some(now),
                                         activationGeneration := Some(d.policy.generation + 1),
                                         interval := Some(IntervalOf(d, type_)))
    && forall m :: m in d.messages && m != id ==>
         if m in Replaced(d, id) then Over(n.messages[m], Cleared, now) && n.messages[m].supersededBy == Some(id)
         else n.messages[m] == d.messages[m]
  }

  lemma SupersededIsReplaced(d: Domain, id: MessageId)
    requires DomainOk(d) && id in d.messages
    ensures Replaced(d, id) == if Superseded(d, id).Some? then {Superseded(d, id).value} else {}
  {
    OnePerSlot(d);
    hide DomainOk;
    var previous := Superseded(d, id);
    forall m | m in Replaced(d, id) ensures previous.Some? && previous.value == m {
      assert SameSlot(d.messages[m], d.messages[id]);
      assert previous.Some?;
      assert BothActive(d.messages, m, previous.value) && SameSlot(d.messages[m], d.messages[previous.value]);
    }
  }

  lemma OnePerSlot(d: Domain)
    requires DomainOk(d)
    ensures forall a, b :: BothActive(d.messages, a, b) && SameSlot(d.messages[a], d.messages[b]) ==> a == b
  {
    hide ExecutionsOk, ContentOk, CadenceOk, HistoryOk, OwnedOk;
  }

  lemma CandidatesAreComponents(d: Domain, id: MessageId)
    requires DomainOk(d) && id in d.messages && !d.messages[id].state.Active?
    ensures Candidates(d, id, Superseded(d, id)) == ComponentsOf(d.messages, WouldBeActive(d, id))
  {
    SupersededIsReplaced(d, id);
    hide DomainOk, Superseded;
    var previous := Superseded(d, id);
    var kept := set other | other in d.messages && d.messages[other].state.Active? && Some(other) != previous;
    assert kept + {id} == WouldBeActive(d, id);
    forall c ensures c in Candidates(d, id, previous) <==> c in ComponentsOf(d.messages, WouldBeActive(d, id)) {
      if c in ComponentsOf(d.messages, WouldBeActive(d, id)) {
        var m :| m in WouldBeActive(d, id) && c == ComponentOf(m, d.messages[m]);
        assert m == id || m in kept;
      }
      if c in Candidates(d, id, previous) {
        assert c.message in kept || c.message == id;
        assert c == ComponentOf(c.message, d.messages[c.message]);
      }
    }
  }

  /** The activation is done, as a change or because the message is ACTIVE already. */
  ghost predicate Activates(d: Domain, id: MessageId, actor: Actor, type_: TypeFacts, binding: Binding,
                            reading: StingerReading, now: Time)
  {
    && (actor.control || actor.produce) && id in d.messages && MayPublish(actor, d.messages[id], type_)
    && (|| d.messages[id].state.Active?
        || (&& Publishable(d.messages[id], type_, binding, now)
            && Fits(d.policy, d.messages, WouldBeActive(d, id), reading)))
  }

  lemma ActivateWhen(d: Domain, id: MessageId, actor: Actor, type_: TypeFacts, binding: Binding, reading: StingerReading,
                     now: Time)
    requires DomainOk(d)
    ensures Activate(d, id, actor, type_, binding, reading, now).reply == Done <==>
            Activates(d, id, actor, type_, binding, reading, now)
  {
    if id in d.messages && !d.messages[id].state.Active? {
      VerdictIsFitting(d, id, reading);
      RefusalIsUnpublishable(d.messages[id], type_, binding, now);
      hide ActivationRefusal, Publishable, DomainOk, Eligibility, StingerFor, Candidates, Fits, SuppressStale, Activated,
           WouldBeActive, Superseded;
    } else {
      hide ActivationRefusal, Publishable, DomainOk, Eligibility, StingerFor, Candidates, Fits, SuppressStale, Activated,
           WouldBeActive, Superseded;
    }
  }

  lemma RefusalIsUnpublishable(m: Message, type_: TypeFacts, binding: Binding, now: Time)
    ensures ActivationRefusal(m, type_, binding, now).None? <==> Publishable(m, type_, binding, now)
  {
  }

  lemma ActivateGives(d: Domain, id: MessageId, actor: Actor, type_: TypeFacts, binding: Binding, reading: StingerReading,
                      now: Time)
    ensures var o := Activate(d, id, actor, type_, binding, reading, now);
            && (o.reply != Done ==> o.reply.Refused? && o.domain == d)
            && (o.reply == Done ==>
                  id in d.messages &&
                  o.domain == if d.messages[id].state.Active? then d
                              else SuppressStale(Activated(d, id, Superseded(d, id), IntervalOf(d, type_), now), now))
  {
    hide Eligibility, StingerFor, Candidates, SuppressStale, Activated, Superseded;
  }

  lemma VerdictIsFitting(d: Domain, id: MessageId, reading: StingerReading)
    requires DomainOk(d) && id in d.messages && !d.messages[id].state.Active?
    ensures var cs := Candidates(d, id, Superseded(d, id));
            Eligibility(d.policy, cs, StingerFor(d.policy, cs, reading)).None? <==>
            Fits(d.policy, d.messages, WouldBeActive(d, id), reading)
  {
    CandidatesAreComponents(d, id);
    EligibilityIsFitting(d.policy, d.messages, WouldBeActive(d, id), reading);
    hide DomainOk, Eligibility, StingerFor, Candidates, ComponentsOf, Fits, WouldBeActive, Superseded;
  }

  /** The replay interval it will keep: the type's own, or else the policy's. */
  function IntervalOf(d: Domain, type_: TypeFacts): nat {
    if type_.interval.Some? then type_.interval.value else d.policy.interval
  }

  lemma ActivatedAre(d: Domain, id: MessageId, type_: TypeFacts, now: Time)
    requires DomainOk(d) && id in d.messages && d.messages[id].state.Prepared?
    ensures ActivatedRows(d, SuppressStale(Activated(d, id, Superseded(d, id), IntervalOf(d, type_), now), now), id, type_, now)
  {
    var interval := IntervalOf(d, type_);
    var b := Activated(d, id, Superseded(d, id), interval, now);
    SupersededIsReplaced(d, id);
    SuppressesRows(d, b.messages, now);
    assert b == Bump(d).(messages := b.messages);
    SuppressKeepsPolicy(b, now);
    hide DomainOk, SuppressStale, NewComposition, Superseded;
  }

  lemma SuppressKeepsPolicy(d: Domain, now: Time)
    ensures SuppressStale(d, now).policy == d.policy
  {
  }

  /** `activate_message`: a complete draft whose set would fit becomes due at once, with the type's interval or else the
      policy's, replaces the producer's message of the same type, and starts a new composition; activating twice changes
      nothing. Refused, nothing changes. */
  lemma ActivateDoes(d: Domain, id: MessageId, actor: Actor, type_: TypeFacts, binding: Binding, reading: StingerReading,
                     now: Time)
    requires DomainOk(d)
    ensures var o := Serve(d, ActivateMessage(id, actor, type_, binding, reading), now);
            && (o.reply == Done <==> Activates(d, id, actor, type_, binding, reading, now))
            && (o.reply != Done ==> o.reply.Refused? && o.domain == d)
            && (o.reply == Done && d.messages[id].state.Active? ==> o.domain == d)
            && (o.reply == Done && !d.messages[id].state.Active? ==> ActivatedRows(d, o.domain, id, type_, now))
  {
    ActivateWhen(d, id, actor, type_, binding, reading, now);
    ActivateGives(d, id, actor, type_, binding, reading, now);
    hide DomainOk, Activate, Fits, WouldBeActive, SuppressStale, Activated, Superseded, ActivatedRows;
    if id in d.messages && d.messages[id].state.Prepared? {
      ActivatedAre(d, id, type_, now);
    }
  }
}
