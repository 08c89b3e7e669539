/** What it takes to show that something can happen: names nobody has used yet,
    records that can be stored, and runs put together step by step. */
module BrokerProgress {
  import opened ByteStrings
  import opened Wrappers
  import opened Domain
  import opened Broker
  import opened BrokerFrame
  import opened BrokerReach
  import Grants
  import Ledger
  import Policy
  import Store
  import Totp

  /** The run stays within one process. */
  ghost predicate NoRestart(steps: seq<Step>) {
    forall i :: 0 <= i < |steps| ==> !IsRestart(steps[i])
  }

  const BLANK: Ledger.EventContent := Ledger.EventContent([], [], [], None, [], [], false)

  lemma FreshThread(used: set<nat>) returns (t: nat)
    ensures t !in used
  {
    var bound := UpperBound(used);
    t := bound + 1;
  }

  lemma {:induction false} UpperBound(used: set<nat>) returns (b: nat)
    ensures forall u <- used :: u <= b
    decreases |used|
  {
    if used == {} {
      b := 0;
    } else {
      var u :| u in used;
      var rest := UpperBound(used - {u});
      b := if u > rest then u else rest;
      forall v <- used
        ensures v <= b
      {
        assert v == u || v in used - {u};
      }
    }
  }

  /** Longer than every identifier in use. */
  lemma FreshId(used: set<Id>) returns (id: Id)
    ensures id !in used
  {
    var lengths := set other <- used :: |other|;
    var b := UpperBound(lengths);
    id := seq(b + 1, _ => 0);
    forall other <- used
      ensures |other| <= b
    {
      assert |other| in lengths;
    }
  }

  predicate Recordable(env: Env, l: Ledger.Log, content: Ledger.EventContent) {
    Ledger.CreateEvent(env.crypto, l, content).Some? && Ledger.Append(env.crypto, l, content, true).1
  }

  /** Where the key works there is always a record that can be stored. */
  lemma FreshContent(env: Env, l: Ledger.Log) returns (content: Ledger.EventContent)
    requires Writable(l)
    ensures Recordable(env, l, content)
  {
    var used := set e <- l.events :: e.eventId;
    var id := FreshId(used);
    content := BLANK.(eventId := id);
    forall i | 0 <= i < |l.events|
      ensures l.events[i].eventId != id
    {
      assert l.events[i].eventId in used;
    }
  }

  /** An answer the indexed lookup may give. */
  lemma Answer(rows: Grants.Rows, tuple: Grants.Tuple) returns (found: Option<Id>)
    ensures Finds(rows, tuple, found)
  {
    if id :| id in rows && rows[id].IsLive() && rows[id].tuple == tuple {
      found := Some(id);
    } else {
      found := None;
    }
  }

  // ------------------------------------------------------------ single steps

  lemma AskIs(env: Env, s: State, t: nat, step: AskStep)
    ensures Next(env, s, Ask(t, step)) == AskNext(env, s, t, step)
  {
    hide AskNext, DecideNext, IssueNext, PollNext, ConsumeNext, FinishNext, WithdrawNext, CallbackNext, WorldNext;
  }

  lemma DecideIs(env: Env, s: State, t: nat, step: DecideStep)
    ensures Next(env, s, Decide(t, step)) == DecideNext(env, s, t, step)
  {
    hide AskNext, DecideNext, IssueNext, PollNext, ConsumeNext, FinishNext, WithdrawNext, CallbackNext, WorldNext;
  }

  lemma IssueIs(env: Env, s: State, t: nat, step: IssueStep)
    ensures Next(env, s, Issue(t, step)) == IssueNext(env, s, t, step)
  {
    hide AskNext, DecideNext, IssueNext, PollNext, ConsumeNext, FinishNext, WithdrawNext, CallbackNext, WorldNext;
  }

  lemma PollIs(env: Env, s: State, t: nat, step: PollStep)
    ensures Next(env, s, Poll(t, step)) == PollNext(env, s, t, step)
  {
    hide AskNext, DecideNext, IssueNext, PollNext, ConsumeNext, FinishNext, WithdrawNext, CallbackNext, WorldNext;
  }

  lemma ConsumeIs(env: Env, s: State, t: nat, step: ConsumeStep)
    ensures Next(env, s, Consume(t, step)) == ConsumeNext(env, s, t, step)
  {
    hide AskNext, DecideNext, IssueNext, PollNext, ConsumeNext, FinishNext, WithdrawNext, CallbackNext, WorldNext;
  }

  lemma FinishIs(env: Env, s: State, t: nat, step: FinishStep)
    ensures Next(env, s, Finish(t, step)) == FinishNext(env, s, t, step)
  {
    hide AskNext, DecideNext, IssueNext, PollNext, ConsumeNext, FinishNext, WithdrawNext, CallbackNext, WorldNext;
  }

  lemma WithdrawIs(env: Env, s: State, t: nat, step: WithdrawStep)
    ensures Next(env, s, Withdraw(t, step)) == WithdrawNext(env, s, t, step)
  {
    hide AskNext, DecideNext, IssueNext, PollNext, ConsumeNext, FinishNext, WithdrawNext, CallbackNext, WorldNext;
  }

  lemma CallbackIs(env: Env, s: State, t: nat, step: CallbackStep)
    ensures Next(env, s, Callback(t, step)) == CallbackNext(env, s, t, step)
  {
    hide AskNext, DecideNext, IssueNext, PollNext, ConsumeNext, FinishNext, WithdrawNext, CallbackNext, WorldNext;
  }

  lemma WorldIs(env: Env, s: State, step: WorldStep)
    ensures Next(env, s, World(step)) == WorldNext(env, s, step)
  {
    hide AskNext, DecideNext, IssueNext, PollNext, ConsumeNext, FinishNext, WithdrawNext, CallbackNext, WorldNext;
  }

  /** Nothing was offered or released. */
  predicate SameDeeds(h: History, h': History) {
    h'.offered == h.offered && h'.released == h.released && h'.codes == h.codes
  }

  lemma Admits(s: State, t: nat, request: Id, agent: Id, fingerprint: Bytes)
    requires t !in s.threads && request !in s.fingerprints
    ensures var s' := Submit(s, t, request, agent, fingerprint);
            && SameDeeds(s.history, s'.history)
            && s' == s.(threads := s.threads[t := Admitted(request, agent)], fingerprints := s'.fingerprints,
                        history := s'.history)
  {
  }

  lemma Submits(env: Env, s: State, t: nat, request: Id, agent: Id, fingerprint: Bytes)
    requires t !in s.threads && request !in s.fingerprints
    ensures var s' := Next(env, s, Ask(t, DoSubmit(request, agent, fingerprint)));
            && SameDeeds(s.history, s'.history)
            && s' == s.(threads := s.threads[t := Admitted(request, agent)], fingerprints := s'.fingerprints,
                        history := s'.history)
  {
    hide Next, Submit, SameDeeds;
    AskIs(env, s, t, DoSubmit(request, agent, fingerprint));
    Admits(s, t, request, agent, fingerprint);
  }

  lemma Binds(env: Env, s: State, t: nat, request: Id, agent: Id)
    requires Was(s, t) == Some(Admitted(request, agent))
    ensures Next(env, s, Ask(t, DoBindAgent))
            == s.(threads := s.threads[t := Bound(request, agent)], requestAgents := s.requestAgents[request := agent])
  {
    hide Next;
    AskIs(env, s, t, DoBindAgent);
  }

  lemma Marks(env: Env, s: State, t: nat, request: Id, agent: Id, now: int)
    requires Was(s, t) == Some(Bound(request, agent))
    ensures Next(env, s, Ask(t, DoMarkRequested(now)))
            == s.(threads := s.threads[t := Screening(request, agent, now)],
                  requests := s.requests[request := Requested])
  {
    hide Next;
    AskIs(env, s, t, DoMarkRequested(now));
  }

  /** The log as it is once `content` has been recorded. */
  function LogWith(env: Env, l: Ledger.Log, content: Ledger.EventContent): Ledger.Log {
    Ledger.Append(env.crypto, l, content, true).0
  }

  lemma Screens(env: Env, s: State, t: nat, request: Id, agent: Id, at: int, content: Ledger.EventContent)
    requires Was(s, t) == Some(Screening(request, agent, at)) && Recordable(env, s.log, content)
    ensures Next(env, s, Ask(t, DoRecordRequested(content, true)))
            == s.(threads := s.threads[t := Screened(request, agent, at)], log := LogWith(env, s.log, content))
  {
    hide Next, Ledger.CreateEvent, Ledger.Append;
    AskIs(env, s, t, DoRecordRequested(content, true));
  }

  /** The session is there, and reads like this. */
  predicate Has(s: State, session: Id, seen: Session) {
    session in s.sessions && s.sessions[session] == seen
  }

  lemma Sees(env: Env, s: State, t: nat, request: Id, agent: Id, at: int, session: Id, seen: Session)
    requires Was(s, t) == Some(Screened(request, agent, at)) && Present(s, session, at) && Has(s, session, seen)
    ensures Next(env, s, Ask(t, DoCheckSession(session)))
            == s.(threads := s.threads[t := SessionSeen(request, agent, at, session, seen)])
  {
    hide Next;
    AskIs(env, s, t, DoCheckSession(session));
  }

  lemma Measures(
    env: Env, s: State, t: nat, request: Id, agent: Id, at: int, session: Id, seen: Session, tab: nat, target: Origin)
    requires Was(s, t) == Some(SessionSeen(request, agent, at, session, seen)) && Usable(s, session, tab, target, at)
    ensures var s', page := Next(env, s, Ask(t, DoMeasure(tab, target))), PageOf(s, session, tab);
            && s'.threads == s.threads[t := Measured(request, agent, BindingOf(session, seen.extensionKey, tab, page),
                                                     Measurement(seen, page, target, at))]
            && SameDeeds(s.history, s'.history) && s' == s.(threads := s'.threads, history := s'.history)
  {
    hide Next, PageOf;
    AskIs(env, s, t, DoMeasure(tab, target));
  }

  /** What is authorised under the policy in force, without presence. */
  function Allowance(
    s: State, request: Id, agent: Id, binding: Binding, m: Measurement, choice: Choice, consumeTtl: nat,
    executionTtl: nat)
    : Authorization
  {
    Authorization(
      Subject(request, agent, choice.credential, choice.action, choice.recipe, choice.recipeHash, s.policyHash),
      binding, m, choice.identity, Policy.RiskOf(choice.action, false, m.session.assurance), choice.generator, false,
      consumeTtl, executionTtl)
  }

  lemma Evaluates(
    env: Env, s: State, t: nat, request: Id, agent: Id, binding: Binding, m: Measurement, choice: Choice,
    consumeTtl: nat, executionTtl: nat)
    requires Was(s, t) == Some(Measured(request, agent, binding, m))
    ensures Next(env, s, Ask(t, DoEvaluate(choice, Allowed(false, consumeTtl, executionTtl))))
            == s.(threads := s.threads[t := Authorized(Allowance(s, request, agent, binding, m, choice, consumeTtl,
                                                                 executionTtl))])
  {
    hide Next, Policy.RiskOf;
    AskIs(env, s, t, DoEvaluate(choice, Allowed(false, consumeTtl, executionTtl)));
  }

  lemma RoutesByPolicy(env: Env, s: State, t: nat, a: Authorization, found: Option<Id>)
    requires Was(s, t) == Some(Authorized(a)) && !a.presence && Finds(s.grants, TupleOf(a), found)
    ensures Next(env, s, Ask(t, DoRoute(found, true))) == s.(threads := s.threads[t := Minting(a, ByPolicy)])
  {
    hide Next, Finds, Covering;
    AskIs(env, s, t, DoRoute(found, true));
  }

  lemma Registers(env: Env, s: State, session: Id, extensionKey: Bytes, instance: Id, now: int)
    requires session !in s.sessions
    ensures var s' := Next(env, s, World(DoRegisterSession(session, extensionKey, instance, now)));
            s' == s.(sessions := s.sessions[session := Session(extensionKey, instance, Ascii("managed"), true, now)])
  {
    hide Next, Ascii;
    WorldIs(env, s, DoRegisterSession(session, extensionKey, instance, now));
  }

  lemma Reports(env: Env, s: State, session: Id, tab: nat, page: Page)
    ensures var s' := Next(env, s, World(DoReportPage(session, tab, page)));
            && s' == s.(pages := s'.pages) && HasPage(s', session, tab) && PageOf(s', session, tab) == page
  {
    hide Next;
    WorldIs(env, s, DoReportPage(session, tab, page));
  }

  lemma Issues(
    env: Env, s: State, t: nat, a: Authorization, authority: Authority, id: Id, now: int,
    content: Ledger.EventContent)
    requires Was(s, t) == Some(Minting(a, authority)) && id !in s.db.capabilities && Recordable(env, s.log, content)
    ensures var s' := Next(env, s, Issue(t, DoMintRow(id, now, content, true)));
            && SameDeeds(s.history, s'.history)
            && s' == s.(threads := s.threads[t := RowMinted(NewCapability(a, id, now), a.generator)],
                        log := LogWith(env, s.log, content), history := s'.history,
                        db := s.db.(capabilities := s.db.capabilities[id := NewRow(a, s.boot)]))
  {
    hide Next, Ledger.CreateEvent, Ledger.Append, NewCapability, NewRow;
    IssueIs(env, s, t, DoMintRow(id, now, content, true));
  }

  lemma Refuses(env: Env, s: State, t: nat, a: Authorization, authority: Authority)
    requires Was(s, t) == Some(Minting(a, authority)) && !authority.ByApproval?
    ensures Next(env, s, Issue(t, DoMintRow([], 0, BLANK, false)))
            == s.(threads := s.threads[t := Failing(a.subject.request)])
  {
    hide Next, Ledger.CreateEvent, NewCapability, NewRow;
    IssueIs(env, s, t, DoMintRow([], 0, BLANK, false));
  }

  lemma Enters(env: Env, s: State, t: nat, c: Capability, generator: Option<Totp.Generator>)
    requires Was(s, t) == Some(RowMinted(c, generator))
    ensures Next(env, s, Issue(t, DoPublishCapability))
            == s.(threads := s.threads[t := EntryMinted(c)], capabilities := s.capabilities[c.terms.id := c],
                  generators := s.generators[c.terms.id := generator])
  {
    hide Next;
    IssueIs(env, s, t, DoPublishCapability);
  }

  lemma Queues(env: Env, s: State, t: nat, c: Capability)
    requires Was(s, t) == Some(EntryMinted(c))
    ensures var s', session := Next(env, s, Issue(t, DoQueueOffer)), c.terms.binding.session;
            && SameDeeds(s.history, s'.history)
            && s' == s.(threads := s.threads[t := Reporting(c.terms.subject.request, CapabilityIssued, true)],
                        offers := s.offers[session := QueueOf(s, session) + [c.terms.id]], history := s'.history)
  {
    hide Next, QueueOf;
    IssueIs(env, s, t, DoQueueOffer);
  }

  lemma Notes(env: Env, s: State, t: nat, request: Id, state: RequestState, upsert: bool)
    requires Was(s, t) == Some(Reporting(request, state, upsert)) && (upsert || request in s.requests)
    ensures Next(env, s, Ask(t, DoReport))
            == s.(threads := s.threads - {t}, requests := s.requests[request := state])
  {
    hide Next;
    AskIs(env, s, t, DoReport);
  }

  // decisions

  lemma BeginsDecision(env: Env, s: State, t: nat, id: Id, pending: PendingApproval)
    requires t !in s.threads && Waits(s, id, pending)
    ensures Next(env, s, Decide(t, DoBeginDecide(id))) == s.(threads := s.threads[t := Deciding(id, pending)])
  {
    hide Next;
    DecideIs(env, s, t, DoBeginDecide(id));
  }

  predicate Waits(s: State, id: Id, pending: PendingApproval) {
    id in s.approvals && s.approvals[id] == pending
  }

  /** The decision can still be written. */
  predicate RowPending(db: Store.Tables, approval: Id) {
    approval in db.approvals && db.approvals[approval].decision == Store.Pending
  }

  lemma Decides(
    env: Env, s: State, t: nat, id: Id, pending: PendingApproval, decision: Store.Decision, verdict: Verdict,
    content: Ledger.EventContent)
    requires Was(s, t) == Some(Judged(id, pending, decision, verdict)) && RowPending(s.db, id)
    requires Recordable(env, s.log, content)
    ensures var s' := Next(env, s, Decide(t, DoStoreDecision(content, true)));
            && Was(s', t) == Some(DecisionStored(id, pending, decision, verdict))
            && s'.db.capabilities == s.db.capabilities
  {
    hide Next, Ledger.CreateEvent, Ledger.Append;
    DecideIs(env, s, t, DoStoreDecision(content, true));
  }

  function AfterDecision(pending: PendingApproval, decision: Store.Decision, verdict: Verdict): Point {
    if decision == Store.Decision.Approved then Minting(pending.authorization, ByApproval(verdict))
    else Reporting(pending.authorization.subject.request, Refusal(decision), true)
  }

  lemma Drops(
    env: Env, s: State, t: nat, id: Id, pending: PendingApproval, decision: Store.Decision, verdict: Verdict)
    requires Was(s, t) == Some(DecisionStored(id, pending, decision, verdict))
    ensures Next(env, s, Decide(t, DoDropApproval))
            == s.(threads := s.threads[t := AfterDecision(pending, decision, verdict)],
                  approvals := s.approvals - {id})
  {
    hide Next, Refusal;
    DecideIs(env, s, t, DoDropApproval);
  }

  lemma Publishes(env: Env, s: State, t: nat, id: Id, pending: PendingApproval)
    requires Was(s, t) == Some(ApprovalStored(id, pending))
    ensures Next(env, s, Ask(t, DoPublishApproval))
            == s.(threads := s.threads[t := Reporting(pending.authorization.subject.request, AwaitingApproval, true)],
                  approvals := s.approvals[id := pending])
  {
    hide Next;
    AskIs(env, s, t, DoPublishApproval);
  }

  lemma Touches(env: Env, s: State, t: nat, a: Authorization, standing: Standing)
    requires Was(s, t) == Some(Granting(a, standing))
    ensures Next(env, s, Ask(t, DoTouchGrant(false))) == s.(threads := s.threads[t := Touched(a, standing)])
  {
    hide Next;
    AskIs(env, s, t, DoTouchGrant(false));
  }

  /** Where a request goes whose grants can, or cannot, be read. */
  lemma Routes(env: Env, s: State, t: nat, a: Authorization, found: Option<Id>, readable: bool)
    requires Was(s, t) == Some(Authorized(a)) && Finds(s.grants, TupleOf(a), found)
    ensures Next(env, s, Ask(t, DoRoute(found, readable)))
            == s.(threads := s.threads[t := RouteTo(s.grants, a, found, readable)])
  {
    hide Next, Finds, RouteTo;
    AskIs(env, s, t, DoRoute(found, readable));
  }

  /** Records can be stored. */
  ghost predicate Writable(l: Ledger.Log) {
    KeyWorks(l) && SequencesBelow(l)
  }

  /** And still can, whatever the step. */
  lemma StaysWritable(env: Env, s: State, step: Step)
    requires Writable(s.log) && !IsRestart(step)
    ensures Writable(Next(env, s, step).log)
  {
    hide Next, SequencesBelow;
    BelowStep(env, s, step);
  }
}
