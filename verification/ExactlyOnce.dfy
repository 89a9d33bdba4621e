/** Requests answered once and for all, failures not repeated, and due airings not lost. */
module ExactlyOnce {
  import opened Common
  import opened Ordering
  import opened Composition
  import opened Services
  import opened DomainInvariants
  import opened ServiceSteps
  import opened Playout
  import opened PlayoutInvariants
  import opened Runs
  import opened Airings

  ghost function ReplyTo(s: Station, m: Moment): Option<Reply> {
    if m.step.Service? then Some(Serve(s.domain, m.step.call, m.now).reply) else None
  }

  // -- Replay Now ---------------------------------------------------------------------------------------------------

  predicate Asks(m: Moment, request: Token) {
    m.step.Service? && m.step.call.RequestReplay? && m.step.call.request == request
  }

  /** A granted request is on record; a request already on record creates nothing. */
  lemma GrantIsRecorded(d: Domain, actor: Actor, token: Token, id: ExecutionId, now: Time, createdAt: Time,
                        reading: StingerReading)
    requires Replay(d, actor, token, id, now, createdAt, reading).reply.Airing?
    ensures var o := Replay(d, actor, token, id, now, createdAt, reading);
            && token in o.domain.requests && o.domain.requests[token].execution == o.reply.execution
            && (token in d.requests ==> o.reply == Airing(d.requests[token].execution, WasRepeated))
  {
    hide Refresh, OpenExecution, Eligibility, Aggregate, StingerFor, NewExecution;
  }

  /** Every grant of one Replay Now token names the same execution, and only the first can have created it. */
  lemma ReplayIsAnsweredOnce(s: Station, run: seq<Moment>, i: nat, j: nat, token: Token)
    requires Initial(s) && i < j < |run| && Asks(run[i], token) && Asks(run[j], token)
    requires ReplyTo(After(s, run[..i]), run[i]).value.Airing? && ReplyTo(After(s, run[..j]), run[j]).value.Airing?
    ensures ReplyTo(After(s, run[..j]), run[j]).value ==
              Airing(ReplyTo(After(s, run[..i]), run[i]).value.execution, WasRepeated)
  {
    hide Initial, Replay, RowsRemember, EvidenceRemembered, After;
    var ci, cj := run[i].step.call, run[j].step.call;
    var di, dj := After(s, run[..i]).domain, After(s, run[..j]).domain;
    GrantIsRecorded(di, ci.actor, token, ci.id, run[i].now, ci.createdAt, ci.reading);
    GrantIsRecorded(dj, cj.actor, token, cj.id, run[j].now, cj.createdAt, cj.reading);
    AfterTakes(s, run, i);
    RecordedStays(s, run, i + 1, j);
  }

  lemma AfterTakes(s: Station, run: seq<Moment>, i: nat)
    requires i < |run|
    ensures After(s, run[..i + 1]) == Take(After(s, run[..i]), run[i])
  {
    assert run[..i + 1][..i] == run[..i];
  }

  lemma RecordedStays(s: Station, run: seq<Moment>, i: nat, j: nat)
    requires Initial(s) && i <= j <= |run|
    ensures AnswersRemembered(After(s, run[..i]).domain, After(s, run[..j]).domain)
  {
    hide Initial, RowsRemember, EvidenceRemembered, AnswersRemembered, After;
    assert run[..j][..i] == run[..i];
    RunRemembers(s, run[..j], i);
  }

  // -- stinger-failed occurrences -----------------------------------------------------------------------------------

  predicate Reconciles(m: Moment, failed: ExecutionId) {
    m.step.Service? && m.step.call.ReconcileStinger? && m.step.call.failed == failed
  }

  /** An answer is on record; an occurrence already on record gets that answer again. */
  lemma AnswerIsRecorded(d: Domain, failed: ExecutionId, id: ExecutionId, now: Time, createdAt: Time,
                         reading: StingerReading)
    requires !ReconcileFailure(d, failed, id, now, createdAt, reading).reply.Refused?
    ensures var o := ReconcileFailure(d, failed, id, now, createdAt, reading);
            && failed in o.domain.reconciled
            && (o.reply == AiringOf(o.domain.reconciled[failed], WasCreated) ||
                o.reply == AiringOf(o.domain.reconciled[failed], WasCoalesced) ||
                o.reply == AiringOf(o.domain.reconciled[failed], WasRepeated))
            && (failed in d.reconciled ==> o.reply == AiringOf(d.reconciled[failed], WasRepeated))
  {
    hide Refresh, OpenExecution, Eligibility, Aggregate, StingerFor, NewExecution;
  }

  /** A stinger-failed occurrence is answered once: every later call repeats the recorded answer. */
  lemma FailureIsReconciledOnce(s: Station, run: seq<Moment>, i: nat, j: nat, failed: ExecutionId)
    requires Initial(s) && i < j < |run| && Reconciles(run[i], failed) && Reconciles(run[j], failed)
    requires !ReplyTo(After(s, run[..i]), run[i]).value.Refused?
    requires !ReplyTo(After(s, run[..j]), run[j]).value.Refused?
    ensures var first := ReplyTo(After(s, run[..i]), run[i]).value;
            ReplyTo(After(s, run[..j]), run[j]).value ==
              if first.Airing? then Airing(first.execution, WasRepeated) else NoAiring
  {
    hide Initial, ReconcileFailure, RowsRemember, EvidenceRemembered, After;
    var ci, cj := run[i].step.call, run[j].step.call;
    var di, dj := After(s, run[..i]).domain, After(s, run[..j]).domain;
    AnswerIsRecorded(di, failed, ci.id, run[i].now, ci.createdAt, ci.reading);
    AnswerIsRecorded(dj, failed, cj.id, run[j].now, cj.createdAt, cj.reading);
    AfterTakes(s, run, i);
    RecordedStays(s, run, i + 1, j);
  }

  /** A failed occurrence has at most one RECONCILE successor, of its own generation, and every RECONCILE
      execution is somebody's successor. */
  lemma OneSuccessor(s: Station, run: seq<Moment>, x: ExecutionId, y: ExecutionId)
    requires Initial(s)
    requires var d := After(s, run).domain;
             && x in d.executions && d.executions[x].reason.Reconcile?
             && y in d.executions && d.executions[y].reason.Reconcile?
    ensures var d := After(s, run).domain;
            && x in d.reconciles && y in d.reconciles && (d.reconciles[x] == d.reconciles[y] ==> x == y)
            && d.reconciles[x] in d.executions && StingerFailed(d.executions[d.reconciles[x]])
            && d.executions[x].generation == d.executions[d.reconciles[x]].generation
  {
    hide Initial, After, AiringOk, MessagesOk, ExecutionsOk, ContentOk, CadenceOk, OwnedOk;
    ReachableOk(s, run);
  }

  // -- scheduled airings --------------------------------------------------------------------------------------------

  /** Refreshing leaves creation order, failures and terminal rows as they were. */
  lemma RefreshKeepsFailures(d: Domain, now: Time)
    ensures var r := Refresh(d, now);
            forall x :: x in d.executions ==>
              && x in r.executions && r.executions[x].createdAt == d.executions[x].createdAt
              && (d.executions[x].state.Failed? ==> r.executions[x] == d.executions[x])
    ensures Refresh(d, now).executions.Keys == d.executions.Keys
  {
    RefreshKeepsHistory(d, now);
    hide Lives, Remembers, Refresh;
    RefreshOrdinary(d, now);
    forall x | x in d.executions
      ensures Refresh(d, now).executions[x].createdAt == d.executions[x].createdAt
      ensures d.executions[x].state.Failed? ==> Refresh(d, now).executions[x] == d.executions[x]
    {
      assert OwnRow(d.executions[x], Refresh(d, now).executions[x]);
    }
  }

  /** Materialization never repeats the newest failure: when the newest execution failed with a blocking code,
      the scheduled airing it creates has another generation or another digest. */
  lemma FailureIsNotRepeated(d: Domain, id: ExecutionId, now: Time, createdAt: Time, reading: StingerReading,
                             blocking: set<FailureCode>, newest: ExecutionId)
    requires IsNewest(d.executions, newest) && d.executions[newest].state.Failed?
    requires d.executions[newest].failure.Some? && d.executions[newest].failure.value in blocking
    requires Materialize(d, id, now, createdAt, reading, blocking).reply == Airing(id, WasCreated)
    ensures var n := Materialize(d, id, now, createdAt, reading, blocking).domain;
            && id in n.executions && id !in d.executions
            && (n.executions[id].generation != d.executions[newest].generation ||
                n.executions[id].digest != d.executions[newest].digest)
  {
    hide Refresh, Eligibility, Aggregate, StingerFor, OpenExecution;
    RefreshKeepsFailures(d, now);
    var r := Refresh(d, now);
    assert IsNewest(r.executions, newest);
    var n := Materialize(d, id, now, createdAt, reading, blocking).domain;
    assert !Blocks(r, newest, n.executions[id].digest, blocking);
  }

  lemma EligibleIsBuilt(limits: Limits, cs: set<Component>, stinger: Option<StingerReading>, policy: Policy)
    requires cs != {} && policy.limits == limits && limits.maxActive <= ABSOLUTE_MAX_ACTIVE_MESSAGES
    requires Eligibility(policy, cs, stinger).None?
    ensures Aggregate(cs, stinger).Built? && Aggregate(cs, stinger).snapshot.components == SortBy(Listing(cs), Precedes)
  {
    EligibleMeansWithinLimits(limits, Listing(cs), StingerMs(stinger));
    PrecedesOrders();
    SortByKeeps(Listing(cs), Precedes);
    hide SortBy, AccountedMs, MessageFits;
  }

  /** No airing is lost: when a message is due, nothing is unfinished, the active set is eligible and its last
      failure does not block it, the next materialization creates the airing, and it contains that message and
      every other ACTIVE one, due at the earliest due time. */
  lemma DueMessageIsAired(d: Domain, id: ExecutionId, now: Time, createdAt: Time, reading: StingerReading,
                          blocking: set<FailureCode>, m: MessageId)
    requires DomainOk(d) && id !in d.executions
    requires var r := Refresh(d, now);
             var cs := ActiveComponents(r.messages);
             && m in r.messages && r.messages[m].state.Active?
             && r.messages[m].nextDueAt.Some? && r.messages[m].nextDueAt.value <= now
             && OpenExecution(r).None?
             && Eligibility(r.policy, cs, StingerFor(r.policy, cs, reading)).None?
             && (Aggregate(cs, StingerFor(r.policy, cs, reading)).Built? ==>
                   BlockingFailure(r, DigestOf(Aggregate(cs, StingerFor(r.policy, cs, reading)).snapshot), blocking).None?)
    ensures var o := Materialize(d, id, now, createdAt, reading, blocking);
            && o.reply == Airing(id, WasCreated)
            && id in o.domain.executions && Names(o.domain.executions[id], m)
            && o.domain.executions[id].snapshot.components == Ordered(ActiveComponents(Refresh(d, now).messages))
            && o.domain.executions[id].dueAt <= Refresh(d, now).messages[m].nextDueAt.value
  {
    hide Refresh, DomainOk, OpenExecution, BlockingFailure, StingerFor, Eligibility, Aggregate;
    var r := Refresh(d, now);
    RefreshKeeps(d, now);
    RefreshKeepsFailures(d, now);
    var cs := ActiveComponents(r.messages);
    assert r.messages[m].nextDueAt.value in DueTimes(r.messages, now);
    var c := ComponentOf(m, r.messages[m]);
    assert c in cs;
    var stinger := StingerFor(r.policy, cs, reading);
    LimitsFacts(r);
    EligibleIsBuilt(r.policy.limits, cs, stinger, r.policy);
    OrderedIsTheSet(cs);
    hide ActiveComponents, SortBy, Listing;
  }

  lemma LimitsFacts(d: Domain)
    requires DomainOk(d)
    ensures d.policy.limits.maxActive <= ABSOLUTE_MAX_ACTIVE_MESSAGES
  {
    hide MessagesOk, ExecutionsOk, ContentOk, CadenceOk, HistoryOk, OwnedOk;
  }
}
