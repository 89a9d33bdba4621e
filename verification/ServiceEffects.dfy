/** What each service call does, stated on the tables alone: when it is done and when refused, what it leaves of the rows
    it is about, that it leaves every other row as it was, and what it makes of the generation. */
module ServiceEffects {
  import opened Common
  import opened Ordering
  import opened Composition
  import opened Services
  import opened DomainInvariants

  // -- vocabulary ---------------------------------------------------------------------------------------------------

  function ActiveIds(d: Domain): set<MessageId> {
    set m | m in d.messages && d.messages[m].state.Active?
  }

  /** Nothing is airing-relevant: the generation and every execution stay. */
  predicate SameComposition(d: Domain, n: Domain) {
    n.policy.generation == d.policy.generation && n.executions == d.executions
  }

  /** One generation on, and whatever waited for the engine is suppressed: nothing of the old composition can be claimed. */
  predicate NewComposition(d: Domain, n: Domain, now: Time) {
    && n.policy.generation == d.policy.generation + 1 && n.executions.Keys == d.executions.Keys
    && forall x :: x in d.executions ==>
         var e := d.executions[x];
         if e.state.PendingRender? || e.state.Ready? then
           n.executions[x] == e.(state := Suppressed, open := false, terminalAt := Some(now),
                                 failure := Some(StaleGeneration))
         else n.executions[x] == e
  }

  predicate SameHistory(d: Domain, n: Domain) {
    n.requests == d.requests && n.reconciled == d.reconciled && n.reconciles == d.reconciles && n.airedIn == d.airedIn
  }

  /** Only this message's row may differ. */
  predicate OnlyMessage(d: Domain, n: Domain, id: MessageId) {
    && n.messages.Keys == d.messages.Keys + {id}
    && forall m :: m in d.messages && m != id ==> n.messages[m] == d.messages[m]
  }

  /** A message that ended: it can never be due again. */
  predicate Over(m: Message, state: MessageState, now: Time) {
    m.state == state && m.terminalAt == Some(now) && m.nextDueAt.None?
  }

  // -- suppression --------------------------------------------------------------------------------------------------

  /** In an ordered domain what the domain owns is current, so a new generation suppresses all of it. */
  lemma SuppressesOwned(d: Domain, b: Domain, now: Time)
    requires DomainOk(d) && b.executions == d.executions && b.policy.generation == d.policy.generation + 1
    ensures NewComposition(d, SuppressStale(b, now), now)
    ensures SuppressStale(b, now) == b.(executions := SuppressStale(b, now).executions)
  {
    OwnedAreCurrent(d);
    hide DomainOk;
  }

  /** Message rows written under a new generation. */
  lemma SuppressesRows(d: Domain, rows: map<MessageId, Message>, now: Time)
    requires DomainOk(d)
    ensures var n := SuppressStale(Bump(d).(messages := rows), now);
            NewComposition(d, n, now) && n.messages == rows && SameHistory(d, n)
  {
    SuppressesOwned(d, Bump(d).(messages := rows), now);
    hide DomainOk, SuppressStale, NewComposition;
  }

  lemma OwnedAreCurrent(d: Domain)
    requires DomainOk(d)
    ensures forall x :: x in d.executions && Prestart(d.executions[x].state) ==>
              d.executions[x].generation == d.policy.generation
  {
    hide MessagesOk, ExecutionsOk, ContentOk, CadenceOk, HistoryOk;
  }

  lemma NothingStale(d: Domain, now: Time)
    requires DomainOk(d)
    ensures SuppressStale(d, now) == d
  {
    OwnedAreCurrent(d);
    hide DomainOk;
    assert SuppressStale(d, now).executions == d.executions;
  }

  // -- clearing -----------------------------------------------------------------------------------------------------

  predicate Ended(m: Message) {
    m.state.Cleared? || m.state.Expired?
  }

  /** Who may end a message, and in which state it must be found. */
  predicate MayEnd(m: Message, actor: Actor, type_: TypeFacts, expected: Option<MessageState>) {
    || Ended(m)
    || ((expected.Some? ==> expected.value == m.state) &&
        (actor.control || (m.producer == actor.id && (m.state.Active? ==> type_.recallable))))
  }

  /** `clear_message`: done, the message is over; recalling an ACTIVE one makes a new generation, in which no waiting
      airing is left, while discarding a draft or repeating a clear changes nothing else. Refused, nothing changes; and it
      is done exactly for whom it should be. */
  lemma ClearDoes(d: Domain, id: MessageId, actor: Actor, type_: TypeFacts, expected: Option<MessageState>, now: Time)
    requires DomainOk(d)
    ensures var o := Serve(d, ClearMessage(id, actor, type_, expected), now);
            && (o.reply == Done <==> (actor.control || actor.produce) && id in d.messages &&
                                     MayEnd(d.messages[id], actor, type_, expected))
            && (o.reply != Done ==> o.reply.Refused? && o.domain == d)
            && (o.reply == Done ==> ClearedRow(d, o.domain, id, now))
            && (o.reply == Done && d.messages[id].state.Active? ==>
                  forall x :: x in o.domain.executions ==> !Prestart(o.domain.executions[x].state))
  {
    hide Serve, DomainOk, SuppressStale, Bump, EndMessage, MayEnd;
    ClearReplies(d, id, actor, type_, expected, now);
    if Serve(d, ClearMessage(id, actor, type_, expected), now).reply == Done && !Ended(d.messages[id]) {
      ClearEnds(d, id, actor, type_, expected, now);
    }
  }

  /** What a clear that is done leaves. */
  predicate ClearedRow(d: Domain, n: Domain, id: MessageId, now: Time) {
    && id in d.messages
    && if Ended(d.messages[id]) then n == d
       else
         && OnlyMessage(d, n, id) && Over(n.messages[id], Cleared, now) && SameHistory(d, n)
         && (if d.messages[id].state.Active? then NewComposition(d, n, now) else n.policy == d.policy && SameComposition(d, n))
  }

  lemma ClearReplies(d: Domain, id: MessageId, actor: Actor, type_: TypeFacts, expected: Option<MessageState>, now: Time)
    ensures var o := Serve(d, ClearMessage(id, actor, type_, expected), now);
            && (o.reply == Done <==> (actor.control || actor.produce) && id in d.messages &&
                                     MayEnd(d.messages[id], actor, type_, expected))
            && (o.reply != Done ==> o.reply.Refused? && o.domain == d)
            && (o.reply == Done ==>
                  var rows := d.messages[id := EndMessage(d.messages[id], Cleared, now, None)];
                  o.domain == if Ended(d.messages[id]) then d
                              else if d.messages[id].state.Active? then SuppressStale(Bump(d).(messages := rows), now)
                              else d.(messages := rows))
  {
    hide SuppressStale, Bump, EndMessage;
  }

  lemma ClearEnds(d: Domain, id: MessageId, actor: Actor, type_: TypeFacts, expected: Option<MessageState>, now: Time)
    requires DomainOk(d) && id in d.messages && !Ended(d.messages[id])
    requires Serve(d, ClearMessage(id, actor, type_, expected), now).reply == Done
    ensures ClearedRow(d, Serve(d, ClearMessage(id, actor, type_, expected), now).domain, id, now)
  {
    hide Serve;
    ClearReplies(d, id, actor, type_, expected, now);
    var m := d.messages[id];
    if m.state.Active? {
      SuppressesRows(d, d.messages[id := EndMessage(m, Cleared, now, None)], now);
    }
    hide DomainOk, SuppressStale, NewComposition, Bump;
  }

  /** `expire_due_messages`: exactly the ACTIVE messages whose expiry has come are over, with one new generation for all of
      them, and none when there are none. */
  lemma ExpireDoes(d: Domain, now: Time)
    requires DomainOk(d)
    ensures var o := Serve(d, ExpireDueMessages, now);
            o.reply == Done && SweptRows(d, o.domain, now)
  {
    Sweeps(d, now);
    hide ExpireLocked, DomainOk, SweptRows;
  }

  predicate SweptRows(d: Domain, n: Domain, now: Time) {
    && SameHistory(d, n) && n.messages.Keys == d.messages.Keys
    && (forall m :: m in d.messages ==>
          if Expiring(d.messages[m], now) then Over(n.messages[m], Expired, now) else n.messages[m] == d.messages[m])
    && (if exists m :: m in d.messages && Expiring(d.messages[m], now) then NewComposition(d, n, now) else n == d)
  }

  lemma Sweeps(d: Domain, now: Time)
    requires DomainOk(d)
    ensures SweptRows(d, ExpireLocked(d, now), now)
  {
    hide DomainOk, SuppressStale, NewComposition, Bump;
    var due := DueToExpire(d, now);
    if due != {} {
      var m :| m in due;
      assert Expiring(d.messages[m], now);
      SuppressesRows(d, Swept(d, now).messages, now);
      assert Swept(d, now) == Bump(d).(messages := Swept(d, now).messages);
    } else {
      forall m | m in d.messages ensures !Expiring(d.messages[m], now) {
        assert m !in due;
      }
    }
  }

  predicate Expiring(m: Message, now: Time) {
    m.state.Active? && m.expiresAt.Some? && m.expiresAt.value <= now
  }

  // -- drafts -------------------------------------------------------------------------------------------------------

  predicate MayDraft(actor: Actor, type_: TypeFacts) {
    type_.mode.Some? && type_.enabled && (actor.control || (actor.produce && type_.assignee))
  }

  /** `prepare_message`: a draft of its own kind, type and producer, with nothing bound and no date but its expiry. */
  lemma PrepareDoes(d: Domain, id: MessageId, actor: Actor, contentType: nat, type_: TypeFacts, expiresAt: Option<Time>,
                    now: Time)
    ensures var o := Serve(d, PrepareMessage(id, actor, contentType, type_, expiresAt), now);
            && (o.reply == Done <==> MayDraft(actor, type_) && (expiresAt.Some? ==> expiresAt.value > now) && id !in d.messages)
            && (o.reply != Done ==> o.reply.Refused? && o.domain == d)
            && (o.reply == Done ==>
                  && o.domain == d.(messages := o.domain.messages) && OnlyMessage(d, o.domain, id)
                  && var m := o.domain.messages[id];
                  && m.state.Prepared? && m.kind == type_.mode.value && m.contentType == contentType
                  && m.producer == actor.id && m.expiresAt == expiresAt && m.media.None? && m.nextDueAt.None?
                  && m.activatedAt.None? && m.activationGeneration.None? && m.interval.None? && m.terminalAt.None?)
  {
  }

  /** The draft may carry this audio: it is bindable, the actor's own unless control, and of a duration within the limit. */
  predicate MayBind(policy: Policy, actor: Actor, media: Media, ownMedia: bool, binding: Binding) {
    && binding.Bindable? && (ownMedia || actor.control)
    && media.ms.Some? && 0 < media.ms.value <= policy.limits.maxMessageSeconds * 1000
  }

  lemma BindMediaWhen(d: Domain, id: MessageId, actor: Actor, type_: TypeFacts, media: Media, ownMedia: bool,
                      binding: Binding)
    ensures BindMedia(d, id, actor, type_, media, ownMedia, binding).reply == Done <==>
              && id in d.messages && d.messages[id].state.Prepared?
              && (d.messages[id].producer == actor.id || actor.control)
              && MayDraft(actor, type_) && type_.mode == Some(d.messages[id].kind)
              && ((d.messages[id].media.Some? && d.messages[id].media.value.id == media.id) ||
                  MayBind(d.policy, actor, media, ownMedia, binding))
  {
  }

  /** `bind_message_media`: only a draft's audio changes, only by its producer or control, only to audio that may air. */
  lemma BindMediaDoes(d: Domain, id: MessageId, actor: Actor, type_: TypeFacts, media: Media, ownMedia: bool,
                      binding: Binding, now: Time)
    ensures var o := Serve(d, BindMessageMedia(id, actor, type_, media, ownMedia, binding), now);
            && (o.reply == Done <==>
                  && id in d.messages && d.messages[id].state.Prepared?
                  && (d.messages[id].producer == actor.id || actor.control)
                  && MayDraft(actor, type_) && type_.mode == Some(d.messages[id].kind)
                  && ((d.messages[id].media.Some? && d.messages[id].media.value.id == media.id) ||
                      MayBind(d.policy, actor, media, ownMedia, binding)))
            && (o.reply != Done ==> o.reply.Refused? && o.domain == d)
            && (o.reply == Done ==>
                  o.domain == if d.messages[id].media.Some? && d.messages[id].media.value.id == media.id then d
                              else d.(messages := d.messages[id := d.messages[id].(media := Some(media))]))
  {
    hide MayDraft, MayBind, MayProduce, TypeUsable;
    BindMediaWhen(d, id, actor, type_, media, ownMedia, binding);
  }

  /** `set_message_expiry`: a future expiry or none; control changes any standing message, a producer only an own draft. */
  lemma SetExpiryDoes(d: Domain, id: MessageId, actor: Actor, type_: TypeFacts, expiresAt: Option<Time>,
                      shown: Option<Option<Time>>, now: Time)
    ensures var o := Serve(d, SetMessageExpiry(id, actor, type_, expiresAt, shown), now);
            && (o.reply == Done <==>
                  && (expiresAt.Some? ==> expiresAt.value > now)
                  && (actor.control || actor.produce) && id in d.messages && !Ended(d.messages[id])
                  && (d.messages[id].state.Active? ==> actor.control)
                  && (d.messages[id].state.Prepared? ==>
                        && (d.messages[id].producer == actor.id || actor.control)
                        && MayDraft(actor, type_) && type_.mode == Some(d.messages[id].kind))
                  && (shown.Some? ==> shown.value == d.messages[id].expiresAt))
            && (o.reply != Done ==> o.reply.Refused? && o.domain == d)
            && (o.reply == Done ==>
                  o.domain == d.(messages := d.messages[id := d.messages[id].(expiresAt := expiresAt)]))
  {
  }

  // -- rendered airings ---------------------------------------------------------------------------------------------

  /** The rendition was assembled by the render executor from exactly these inputs: the alert first, when one leads, then
      the audio of each message in its order. */
  predicate AssembledFrom(media: Media, s: Snapshot) {
    && media.provenance.Some? && media.provenance.value.executor
    && s.components != [] && s.components[0].media.Some?
    && media.provenance.value.derivedFrom == s.components[0].media.value.id
    && var inputs := media.provenance.value.inputs;
    && var k := if s.stinger.Some? then 1 else 0;
    && |inputs| == k + |s.components|
    && (s.stinger.Some? ==> inputs[0] == StingerInput(s.stinger.value))
    && forall i :: 0 <= i < |s.components| ==> IsInputOf(inputs[k + i], s.components[i])
  }

  predicate IsInputOf(input: AssemblyInput, c: Component) {
    && input.MessageInput? && input.part.message == c.message && input.part.kind == c.kind
    && (input.part.media.Some? <==> c.media.Some?)
    && (c.media.Some? ==>
          input.part.media.value.id == c.media.value.id && input.part.media.value.sha256 == c.media.value.sha256)
  }

  /** The rendition may air as this execution. */
  predicate MayAirAs(policy: Policy, media: Media, e: Execution) {
    && e.state.PendingRender? && AssembledFrom(media, e.snapshot)
    && media.ms.Some? && 0 < media.ms.value <= policy.limits.maxAggregateSeconds * 1000
  }

  lemma ProvenIsAssembled(media: Media, s: Snapshot)
    ensures Proves(media, s) <==> AssembledFrom(media, s)
  {
    var k := if s.stinger.Some? then 1 else 0;
    var frozen := FrozenInputs(s);
    assert |frozen| == k + |s.components|;
    forall i | 0 <= i < |s.components| ensures frozen[k + i] == MessageInput(PartOf(s.components[i])) {
    }
    if AssembledFrom(media, s) {
      var inputs := media.provenance.value.inputs;
      forall j | 0 <= j < |inputs| ensures inputs[j] == frozen[j] {
        if k <= j {
          assert IsInputOf(inputs[k + (j - k)], s.components[j - k]);
          assert frozen[k + (j - k)] == MessageInput(PartOf(s.components[j - k]));
        }
      }
      assert inputs == frozen;
    }
  }

  lemma FrozenDigest(d: Domain, id: ExecutionId)
    requires DomainOk(d) && id in d.executions
    ensures DigestOf(d.executions[id].snapshot) == d.executions[id].digest
    ensures Prestart(d.executions[id].state) ==> d.executions[id].generation == d.policy.generation
  {
    OwnedAreCurrent(d);
    hide MessagesOk, ContentOk, CadenceOk, HistoryOk, OwnedOk;
  }

  /** `bind_execution_mix`: an execution becomes READY exactly with audio proven to be its own frozen composition and short
      enough; binding the same audio again changes nothing. Refused, nothing changes. */
  lemma BindExecutionMixDoes(d: Domain, id: ExecutionId, media: Media, binding: Binding, now: Time)
    requires DomainOk(d)
    ensures var o := Serve(d, BindExecutionMix(id, media, binding), now);
            var bound := id in d.executions && d.executions[id].state.Ready? && d.executions[id].mix.Some? &&
                         d.executions[id].mix.value.id == media.id;
            && (o.reply == Done <==>
                  binding.Bindable? && id in d.executions && (bound || MayAirAs(d.policy, media, d.executions[id])))
            && (o.reply != Done ==> o.reply.Refused? && o.domain == d)
            && (o.reply == Done && bound ==> o.domain == d)
            && (o.reply == Done && !bound ==>
                  o.domain == d.(executions := d.executions[id :=
                    d.executions[id].(state := Ready, mix := Some(media), readyAt := Some(now))]))
  {
    hide DomainOk, SuppressStale, DigestOf, Proves, AssembledFrom;
    NothingStale(d, now);
    if id in d.executions {
      FrozenDigest(d, id);
      ProvenIsAssembled(media, d.executions[id].snapshot);
    }
  }

  /** `fail_execution`: a waiting execution fails with the renderer's code; any other keeps its state. */
  lemma FailPendingDoes(d: Domain, id: ExecutionId, code: FailureCode, now: Time)
    requires DomainOk(d)
    ensures var o := Serve(d, FailPending(id, code), now);
            && (o.reply == Done <==>
                  id in d.executions && code in {InputUnavailable, StingerPinUnavailable, ProvenanceMismatch,
                                                 RenditionInvalid, FailureCode.AggregateTooLong, RenderFailed})
            && (o.reply != Done ==> o.reply.Refused? && o.domain == d)
            && (o.reply == Done ==>
                  o.domain == if !d.executions[id].state.PendingRender? then d
                              else d.(executions := d.executions[id :=
                                d.executions[id].(state := Failed, open := false, terminalAt := Some(now),
                                                  failure := Some(code))]))
  {
    hide DomainOk, SuppressStale;
    NothingStale(d, now);
    if id in d.executions {
      FrozenDigest(d, id);
    }
  }

  // -- the policy ---------------------------------------------------------------------------------------------------

  predicate Within(value: Option<int>, ceiling: int) {
    value.Some? ==> 1 <= value.value <= ceiling
  }

  /** What a changed policy column does: nothing if it has the value already, else one new generation. */
  predicate PolicyChanged(d: Domain, n: Domain, policy: Policy, now: Time) {
    && n.messages == d.messages && SameHistory(d, n)
    && n.policy == policy.(generation := n.policy.generation)
    && (if policy == d.policy then n == d else NewComposition(d, n, now))
  }

  /** `set_limits`: done, the limits in force are the ones asked for, and the others stay; one generation for all. */
  lemma SetLimitsDoes(d: Domain, actor: Actor, maxActive: Option<int>, maxMessage: Option<int>, maxAggregate: Option<int>,
                      now: Time)
    requires DomainOk(d)
    ensures var o := Serve(d, SetActiveLimits(actor, maxActive, maxMessage, maxAggregate), now);
            var asked := Asked(d.policy.limits, maxActive, maxMessage, maxAggregate);
            && (o.reply == Done <==> actor.control && Within(maxActive, 24) && Within(maxMessage, 600) &&
                                     Within(maxAggregate, 1200) && asked.maxMessageSeconds <= asked.maxAggregateSeconds)
            && (o.reply != Done ==> o.reply.Refused? && o.domain == d)
            && (o.reply == Done ==> PolicyChanged(d, o.domain, d.policy.(limits := asked), now))
  {
    hide Serve, DomainOk, SuppressStale, NewComposition, Asked;
    var o := Serve(d, SetActiveLimits(actor, maxActive, maxMessage, maxAggregate), now);
    var asked := Asked(d.policy.limits, maxActive, maxMessage, maxAggregate);
    SetLimitsReplies(d, actor, maxActive, maxMessage, maxAggregate, now);
    if o.reply == Done && asked != d.policy.limits {
      SuppressesOwned(d, Bump(d).(policy := Bump(d).policy.(limits := asked)), now);
    }
  }

  /** The limits a request asks for: those it names, the others as they are. */
  function Asked(now: Limits, maxActive: Option<int>, maxMessage: Option<int>, maxAggregate: Option<int>): Limits {
    Limits(if maxActive.Some? then maxActive.value else now.maxActive,
           if maxMessage.Some? then maxMessage.value else now.maxMessageSeconds,
           if maxAggregate.Some? then maxAggregate.value else now.maxAggregateSeconds)
  }

  lemma SetLimitsReplies(d: Domain, actor: Actor, maxActive: Option<int>, maxMessage: Option<int>, maxAggregate: Option<int>,
                         now: Time)
    ensures var o := Serve(d, SetActiveLimits(actor, maxActive, maxMessage, maxAggregate), now);
            var asked := Asked(d.policy.limits, maxActive, maxMessage, maxAggregate);
            && (o.reply == Done <==> actor.control && Within(maxActive, 24) && Within(maxMessage, 600) &&
                                     Within(maxAggregate, 1200) && asked.maxMessageSeconds <= asked.maxAggregateSeconds)
            && (o.reply != Done ==> o.reply.Refused? && o.domain == d)
            && (o.reply == Done ==>
                  o.domain == if asked == d.policy.limits then d
                              else SuppressStale(Bump(d).(policy := Bump(d).policy.(limits := asked)), now))
  {
    hide SuppressStale;
  }

  /** `set_stinger_key`: output-affecting, like the limits. */
  lemma SetStingerDoes(d: Domain, actor: Actor, key: Option<nat>, usable: bool, now: Time)
    requires DomainOk(d)
    ensures var o := Serve(d, SetStinger(actor, key, usable), now);
            && (o.reply == Done <==> actor.control && (key.Some? ==> usable))
            && (o.reply != Done ==> o.reply.Refused? && o.domain == d)
            && (o.reply == Done ==> PolicyChanged(d, o.domain, d.policy.(stingerKey := key), now))
  {
    hide DomainOk, SuppressStale, NewComposition;
    SuppressesOwned(d, Bump(d).(policy := Bump(d).policy.(stingerKey := key)), now);
  }

  /** `set_native_airing`: the gate opens only where airing is available; moving it is output-affecting. */
  lemma SetAiringDoes(d: Domain, actor: Actor, enabled: bool, available: bool, now: Time)
    requires DomainOk(d)
    ensures var o := Serve(d, SetAiring(actor, enabled, available), now);
            && (o.reply == Done <==> actor.control && (enabled ==> available))
            && (o.reply != Done ==> o.reply.Refused? && o.domain == d)
            && (o.reply == Done ==> PolicyChanged(d, o.domain, d.policy.(enabled := enabled), now))
  {
    hide DomainOk, SuppressStale, NewComposition;
    SuppressesOwned(d, Bump(d).(policy := Bump(d).policy.(enabled := enabled)), now);
  }

  /** `set_default_replay_interval`: it changes no composition, so no generation. */
  lemma SetIntervalDoes(d: Domain, actor: Actor, seconds: int, now: Time)
    ensures var o := Serve(d, SetDefaultInterval(actor, seconds), now);
            && (o.reply == Done <==> actor.control && 60 <= seconds <= 86400)
            && (o.reply != Done ==> o.reply.Refused? && o.domain == d)
            && (o.reply == Done ==> seconds >= 0 && o.domain == d.(policy := d.policy.(interval := seconds)))
  {
  }
}
