/** Whatever is left for a cancelled request can report over the cancellation:
    for each thing on the list of `BrokerCancel`, a run of the same process that
    does. With it the list is exact. */
module BrokerOverwrite {
  import opened ByteStrings
  import opened Wrappers
  import opened Domain
  import opened Broker
  import opened BrokerFrame
  import opened BrokerReach
  import opened BrokerProgress
  import opened BrokerCancel
  import BrokerBinding
  import Grants
  import Ledger
  import Store
  import Totp
  import Verifier

  /** Some run of this process reports over the cancellation of `r`. */
  ghost predicate Overwritable(env: Env, s: State, r: Id) {
    exists steps: seq<Step> :: NoRestart(steps) && !IsCancelled(Run(env, s, steps), r)
  }

  lemma Overwritten(env: Env, s: State, r: Id)
    requires !IsCancelled(s, r)
    ensures Overwritable(env, s, r)
  {
    hide IsCancelled, Next;
    assert NoRestart([]) && Run(env, s, []) == s;
  }

  /** One step of the run, and the rest of it. */
  lemma Onward(env: Env, s: State, step: Step, r: Id)
    requires !IsRestart(step) && Overwritable(env, Next(env, s, step), r)
    ensures Overwritable(env, s, r)
  {
    hide IsCancelled, Next;
    var rest: seq<Step> :| NoRestart(rest) && !IsCancelled(Run(env, Next(env, s, step), rest), r);
    var steps := [step] + rest;
    assert steps[0] == step && steps[1..] == rest;
    assert NoRestart(steps);
    assert Run(env, s, steps) == Run(env, Next(env, s, step), rest);
  }

  // ------------------------------------------------------------ action request

  lemma FromReporting(env: Env, s: State, t: nat, r: Id, state: RequestState, upsert: bool)
    requires Was(s, t) == Some(Reporting(r, state, upsert)) && state != Cancelled && (upsert || r in s.requests)
    ensures Overwritable(env, s, r)
  {
    hide Run, Next, Overwritable;
    Notes(env, s, t, r, state, upsert);
    Overwritten(env, Next(env, s, Ask(t, DoReport)), r);
    Onward(env, s, Ask(t, DoReport), r);
  }

  /** The handler may still give the request up. */
  predicate MayGiveUp(s: State, t: nat, r: Id) {
    && t in s.threads && RequestOf(s, s.threads[t]) == Some(r)
    && (s.threads[t].Screening? || s.threads[t].Screened? || s.threads[t].SessionSeen? || s.threads[t].Measured?)
  }

  lemma GivesUp(env: Env, s: State, t: nat, r: Id)
    requires MayGiveUp(s, t, r)
    ensures Next(env, s, Ask(t, DoGiveUp)) == s.(threads := s.threads[t := Failing(r)])
  {
    hide Next;
    AskIs(env, s, t, DoGiveUp);
  }

  lemma FromEarly(env: Env, s: State, t: nat, r: Id)
    requires MayGiveUp(s, t, r) && r in s.requests
    ensures Overwritable(env, s, r)
  {
    hide Run, Next, Overwritable, MayGiveUp;
    GivesUp(env, s, t, r);
    FromReporting(env, Next(env, s, Ask(t, DoGiveUp)), t, r, RequestState.RequestFailed, false);
    Onward(env, s, Ask(t, DoGiveUp), r);
  }

  lemma FromBound(env: Env, s: State, t: nat, r: Id, agent: Id)
    requires Was(s, t) == Some(Bound(r, agent))
    ensures Overwritable(env, s, r)
  {
    hide Run, Next, Overwritable;
    Marks(env, s, t, r, agent, 0);
    Overwritten(env, Next(env, s, Ask(t, DoMarkRequested(0))), r);
    Onward(env, s, Ask(t, DoMarkRequested(0)), r);
  }

  lemma FromAdmitted(env: Env, s: State, t: nat, r: Id, agent: Id)
    requires Was(s, t) == Some(Admitted(r, agent))
    ensures Overwritable(env, s, r)
  {
    hide Run, Next, Overwritable;
    Binds(env, s, t, r, agent);
    FromBound(env, Next(env, s, Ask(t, DoBindAgent)), t, r, agent);
    Onward(env, s, Ask(t, DoBindAgent), r);
  }

  lemma MintFails(env: Env, s: State, t: nat, a: Authorization, authority: Authority)
    requires Was(s, t) == Some(Minting(a, authority)) && !authority.ByApproval? && a.subject.request in s.requests
    ensures Overwritable(env, s, a.subject.request)
  {
    hide Run, Next, Overwritable;
    var step := Issue(t, DoMintRow([], 0, BLANK, false));
    BrokerProgress.Refuses(env, s, t, a, authority);
    FromReporting(env, Next(env, s, step), t, a.subject.request, RequestState.RequestFailed, false);
    Onward(env, s, step, a.subject.request);
  }

  lemma StoreFails(env: Env, s: State, t: nat, a: Authorization)
    requires Was(s, t) == Some(Requesting(a))
    ensures Next(env, s, Ask(t, DoStoreApproval([], BLANK, false)))
            == s.(threads := s.threads[t := Failing(a.subject.request)])
  {
    hide Next, Ledger.CreateEvent;
    AskIs(env, s, t, DoStoreApproval([], BLANK, false));
  }

  lemma FromRequesting(env: Env, s: State, t: nat, a: Authorization)
    requires Was(s, t) == Some(Requesting(a)) && a.subject.request in s.requests
    ensures Overwritable(env, s, a.subject.request)
  {
    hide Run, Next, Overwritable;
    var step := Ask(t, DoStoreApproval([], BLANK, false));
    StoreFails(env, s, t, a);
    FromReporting(env, Next(env, s, step), t, a.subject.request, RequestState.RequestFailed, false);
    Onward(env, s, step, a.subject.request);
  }

  lemma FromAuthorized(env: Env, s: State, t: nat, a: Authorization)
    requires Was(s, t) == Some(Authorized(a)) && a.subject.request in s.requests
    ensures Overwritable(env, s, a.subject.request)
  {
    hide Run, Next, Overwritable, Finds;
    var found := Answer(s.grants, TupleOf(a));
    var step := Ask(t, DoRoute(found, false));
    Routes(env, s, t, a, found, false);
    var s' := Next(env, s, step);
    if !a.presence {
      MintFails(env, s', t, a, ByPolicy);
    } else if a.risk.Rank() > Grants.MAX_GRANTABLE.Rank() {
      FromRequesting(env, s', t, a);
    } else {
      FromReporting(env, s', t, a.subject.request, RequestState.RequestFailed, false);
    }
    Onward(env, s, step, a.subject.request);
  }

  lemma UseFails(env: Env, s: State, t: nat, a: Authorization, standing: Standing)
    requires Was(s, t) == Some(Touched(a, standing))
    ensures Next(env, s, Ask(t, DoRecordGrantUse(BLANK, false)))
            == s.(threads := s.threads[t := Failing(a.subject.request)])
  {
    hide Next, Ledger.CreateEvent;
    AskIs(env, s, t, DoRecordGrantUse(BLANK, false));
  }

  lemma FromTouched(env: Env, s: State, t: nat, a: Authorization, standing: Standing)
    requires Was(s, t) == Some(Touched(a, standing)) && a.subject.request in s.requests
    ensures Overwritable(env, s, a.subject.request)
  {
    hide Run, Next, Overwritable;
    var step := Ask(t, DoRecordGrantUse(BLANK, false));
    UseFails(env, s, t, a, standing);
    FromReporting(env, Next(env, s, step), t, a.subject.request, RequestState.RequestFailed, false);
    Onward(env, s, step, a.subject.request);
  }

  lemma FromGranting(env: Env, s: State, t: nat, a: Authorization, standing: Standing)
    requires Was(s, t) == Some(Granting(a, standing)) && a.subject.request in s.requests
    ensures Overwritable(env, s, a.subject.request)
  {
    hide Run, Next, Overwritable;
    Touches(env, s, t, a, standing);
    FromTouched(env, Next(env, s, Ask(t, DoTouchGrant(false))), t, a, standing);
    Onward(env, s, Ask(t, DoTouchGrant(false)), a.subject.request);
  }

  lemma FromApprovalStored(env: Env, s: State, t: nat, id: Id, pending: PendingApproval)
    requires Was(s, t) == Some(ApprovalStored(id, pending))
    ensures Overwritable(env, s, pending.authorization.subject.request)
  {
    hide Run, Next, Overwritable;
    var r := pending.authorization.subject.request;
    Publishes(env, s, t, id, pending);
    FromReporting(env, Next(env, s, Ask(t, DoPublishApproval)), t, r, AwaitingApproval, true);
    Onward(env, s, Ask(t, DoPublishApproval), r);
  }

  // --------------------------------------------------------- mint and decision

  lemma FromEntryMinted(env: Env, s: State, t: nat, c: Capability)
    requires Was(s, t) == Some(EntryMinted(c))
    ensures Overwritable(env, s, c.terms.subject.request)
  {
    hide Run, Next, Overwritable, QueueOf;
    Queues(env, s, t, c);
    FromReporting(env, Next(env, s, Issue(t, DoQueueOffer)), t, c.terms.subject.request, CapabilityIssued, true);
    Onward(env, s, Issue(t, DoQueueOffer), c.terms.subject.request);
  }

  lemma FromRowMinted(env: Env, s: State, t: nat, c: Capability, generator: Option<Totp.Generator>)
    requires Was(s, t) == Some(RowMinted(c, generator))
    ensures Overwritable(env, s, c.terms.subject.request)
  {
    hide Run, Next, Overwritable;
    Enters(env, s, t, c, generator);
    FromEntryMinted(env, Next(env, s, Issue(t, DoPublishCapability)), t, c);
    Onward(env, s, Issue(t, DoPublishCapability), c.terms.subject.request);
  }

  lemma FromMinting(env: Env, s: State, t: nat, a: Authorization, authority: Authority)
    requires Was(s, t) == Some(Minting(a, authority)) && Writable(s.log)
    ensures Overwritable(env, s, a.subject.request)
  {
    hide Run, Next, Overwritable, KeyWorks, SequencesBelow, Ledger.CreateEvent, Ledger.Append, NewCapability, NewRow;
    var id := FreshId(s.db.capabilities.Keys);
    var content := FreshContent(env, s.log);
    var step := Issue(t, DoMintRow(id, 0, content, true));
    Issues(env, s, t, a, authority, id, 0, content);
    FromRowMinted(env, Next(env, s, step), t, NewCapability(a, id, 0), a.generator);
    Onward(env, s, step, a.subject.request);
  }

  lemma FromDecisionStored(
    env: Env, s: State, t: nat, id: Id, pending: PendingApproval, decision: Store.Decision, verdict: Verdict)
    requires Was(s, t) == Some(DecisionStored(id, pending, decision, verdict)) && Writable(s.log)
    ensures Overwritable(env, s, pending.authorization.subject.request)
  {
    hide Run, Next, Overwritable, Writable;
    var r, s' := pending.authorization.subject.request, Next(env, s, Decide(t, DoDropApproval));
    Drops(env, s, t, id, pending, decision, verdict);
    if decision == Store.Decision.Approved {
      FromMinting(env, s', t, pending.authorization, ByApproval(verdict));
    } else {
      FromReporting(env, s', t, r, Refusal(decision), true);
    }
    Onward(env, s, Decide(t, DoDropApproval), r);
  }

  lemma FromJudged(
    env: Env, s: State, t: nat, id: Id, pending: PendingApproval, decision: Store.Decision, verdict: Verdict)
    requires Was(s, t) == Some(Judged(id, pending, decision, verdict)) && RowPending(s.db, id) && Writable(s.log)
    ensures Overwritable(env, s, pending.authorization.subject.request)
  {
    hide Run, Next, Overwritable, KeyWorks, SequencesBelow, RowPending, Ledger.CreateEvent, Ledger.Append;
    var content := FreshContent(env, s.log);
    var step := Decide(t, DoStoreDecision(content, true));
    Decides(env, s, t, id, pending, decision, verdict, content);
    StaysWritable(env, s, step);
    FromDecisionStored(env, Next(env, s, step), t, id, pending, decision, verdict);
    Onward(env, s, step, pending.authorization.subject.request);
  }

  lemma Denies(env: Env, s: State, t: nat, id: Id, pending: PendingApproval)
    returns (decision: Store.Decision, v: Verdict)
    requires Was(s, t) == Some(Deciding(id, pending))
    ensures Next(env, s, Decide(t, DoJudge(false, pending.digest, false, 0)))
            == s.(threads := s.threads[t := Judged(id, pending, decision, v)])
  {
    hide Next, StillCurrent, PageOf;
    DecideIs(env, s, t, DoJudge(false, pending.digest, false, 0));
    var q := Judge(s, t, false, pending.digest, false, 0).threads[t];
    decision, v := q.decision, q.verdict;
  }

  lemma FromDeciding(env: Env, s: State, t: nat, id: Id, pending: PendingApproval)
    requires Was(s, t) == Some(Deciding(id, pending)) && RowPending(s.db, id) && Writable(s.log)
    ensures Overwritable(env, s, pending.authorization.subject.request)
  {
    hide Run, Next, Overwritable, Writable, RowPending;
    var step := Decide(t, DoJudge(false, pending.digest, false, 0));
    var decision, v := Denies(env, s, t, id, pending);
    FromJudged(env, Next(env, s, step), t, id, pending, decision, v);
    Onward(env, s, step, pending.authorization.subject.request);
  }

  lemma FromApproval(env: Env, s: State, id: Id, pending: PendingApproval)
    requires Waits(s, id, pending) && RowPending(s.db, id) && Writable(s.log)
    ensures Overwritable(env, s, pending.authorization.subject.request)
  {
    hide Run, Next, Overwritable, Writable, RowPending, Waits;
    var t := FreshThread(s.threads.Keys);
    BeginsDecision(env, s, t, id, pending);
    FromDeciding(env, Next(env, s, Decide(t, DoBeginDecide(id))), t, id, pending);
    Onward(env, s, Decide(t, DoBeginDecide(id)), pending.authorization.subject.request);
  }

  // --------------------------------------------------------- consume and result

  /** The execution is tracked, for this request. */
  predicate Tracked(s: State, e: Id, r: Id) {
    e in s.executions && s.executions[e].request == r
  }

  lemma Concludes(env: Env, s: State, t: nat, e: Id, outcome: ExecutionState, r: Id)
    requires Was(s, t) == Some(RowFinished(e, outcome)) && Tracked(s, e, r)
    ensures var s' := Next(env, s, Finish(t, DoWriteExecution));
            s' == s.(threads := s.threads[t := Reporting(r, RequestOutcome(outcome), false)],
                     executions := s'.executions)
  {
    hide Next, Concluded, RequestOutcome;
    FinishIs(env, s, t, DoWriteExecution);
  }

  lemma FromRowFinished(env: Env, s: State, t: nat, e: Id, outcome: ExecutionState, r: Id)
    requires Was(s, t) == Some(RowFinished(e, outcome)) && Tracked(s, e, r) && r in s.requests
    ensures Overwritable(env, s, r)
  {
    hide Run, Next, Overwritable, Tracked;
    Concludes(env, s, t, e, outcome, r);
    FromReporting(env, Next(env, s, Finish(t, DoWriteExecution)), t, r, RequestOutcome(outcome), false);
    Onward(env, s, Finish(t, DoWriteExecution), r);
  }

  /** Even when the store refuses it, a report of success is acknowledged. */
  lemma Acknowledges(env: Env, s: State, t: nat, e: Id, content: Ledger.EventContent)
    requires Was(s, t) == Some(Finishing(e, true)) && Ledger.CreateEvent(env.crypto, s.log, content).Some?
    ensures Next(env, s, Finish(t, DoFinishRow(content, false)))
            == s.(threads := s.threads[t := RowFinished(e, CompletedEvidenceLost)])
  {
    hide Next, Ledger.CreateEvent;
    FinishIs(env, s, t, DoFinishRow(content, false));
  }

  lemma FromFinishing(env: Env, s: State, t: nat, e: Id, r: Id)
    requires Was(s, t) == Some(Finishing(e, true)) && Tracked(s, e, r) && r in s.requests && Writable(s.log)
    ensures Overwritable(env, s, r)
  {
    hide Run, Next, Overwritable, KeyWorks, SequencesBelow, Ledger.CreateEvent, Ledger.Append;
    var content := FreshContent(env, s.log);
    var step := Finish(t, DoFinishRow(content, false));
    Acknowledges(env, s, t, e, content);
    FromRowFinished(env, Next(env, s, step), t, e, CompletedEvidenceLost, r);
    Onward(env, s, step, r);
  }

  lemma BeginsResult(env: Env, s: State, t: nat, e: Id, r: Id)
    requires t !in s.threads && Tracked(s, e, r)
    ensures Next(env, s, Finish(t, DoBeginResult(e, true))) == s.(threads := s.threads[t := Finishing(e, true)])
  {
    hide Next;
    FinishIs(env, s, t, DoBeginResult(e, true));
  }

  lemma FromExecution(env: Env, s: State, e: Id, r: Id)
    requires Tracked(s, e, r) && r in s.requests && Writable(s.log)
    ensures Overwritable(env, s, r)
  {
    hide Run, Next, Overwritable, Writable;
    var t := FreshThread(s.threads.Keys);
    BeginsResult(env, s, t, e, r);
    FromFinishing(env, Next(env, s, Finish(t, DoBeginResult(e, true))), t, e, r);
    Onward(env, s, Finish(t, DoBeginResult(e, true)), r);
  }

  lemma Tracks(env: Env, s: State, t: nat, e: Id, use: Use)
    requires Was(s, t) == Some(EntryConsumed(e, use))
    ensures var terms := use.capability.terms;
            Next(env, s, Consume(t, DoTrackExecution))
            == s.(threads := s.threads[t := Releasing(e, use)],
                  executions := s.executions[e := Execution(terms.id, terms.subject.request, Consuming)])
  {
    hide Next;
    ConsumeIs(env, s, t, DoTrackExecution);
  }

  lemma FromEntryConsumed(env: Env, s: State, t: nat, e: Id, use: Use)
    requires Was(s, t) == Some(EntryConsumed(e, use)) && Writable(s.log)
    requires use.capability.terms.subject.request in s.requests
    ensures Overwritable(env, s, use.capability.terms.subject.request)
  {
    hide Run, Next, Overwritable, Writable;
    var r := use.capability.terms.subject.request;
    Tracks(env, s, t, e, use);
    FromExecution(env, Next(env, s, Consume(t, DoTrackExecution)), e, r);
    Onward(env, s, Consume(t, DoTrackExecution), r);
  }

  lemma WritesBack(env: Env, s: State, t: nat, e: Id, use: Use)
    requires Was(s, t) == Some(RowConsumed(e, use))
    ensures var s' := Next(env, s, Consume(t, DoWriteBack));
            s' == s.(threads := s.threads[t := EntryConsumed(e, use)], capabilities := s'.capabilities)
  {
    hide Next;
    ConsumeIs(env, s, t, DoWriteBack);
  }

  lemma FromRowConsumed(env: Env, s: State, t: nat, e: Id, use: Use)
    requires Was(s, t) == Some(RowConsumed(e, use)) && Writable(s.log)
    requires use.capability.terms.subject.request in s.requests
    ensures Overwritable(env, s, use.capability.terms.subject.request)
  {
    hide Run, Next, Overwritable, Writable;
    WritesBack(env, s, t, e, use);
    FromEntryConsumed(env, Next(env, s, Consume(t, DoWriteBack)), t, e, use);
    Onward(env, s, Consume(t, DoWriteBack), use.capability.terms.subject.request);
  }

  /** No execution is called this, and no code was issued to it. */
  ghost predicate Unused(db: Store.Tables, e: Id) {
    e !in db.executions && forall k <- db.totp :: db.totp[k] != e
  }

  lemma Consumes(env: Env, s: State, t: nat, use: Use, e: Id, content: Ledger.EventContent)
    requires Was(s, t) == Some(Verified(use)) && StillConsumable(s.db, use) && Unused(s.db, e)
    requires Recordable(env, s.log, content)
    ensures var s' := Next(env, s, Consume(t, DoConsumeRow(e, content, true)));
            Was(s', t) == Some(RowConsumed(e, use)) && s'.requests == s.requests
  {
    hide Next, Ledger.CreateEvent, Ledger.Append, TotpClaim;
    ConsumeIs(env, s, t, DoConsumeRow(e, content, true));
  }

  lemma FromVerified(env: Env, s: State, t: nat, use: Use)
    requires Was(s, t) == Some(Verified(use)) && StillConsumable(s.db, use) && Store.Sound(s.db) && Writable(s.log)
    requires use.capability.terms.subject.request in s.requests
    ensures Overwritable(env, s, use.capability.terms.subject.request)
  {
    hide Run, Next, Overwritable, KeyWorks, SequencesBelow, StillConsumable, Store.Sound, Ledger.CreateEvent,
         Ledger.Append;
    var e := FreshId(s.db.executions.Keys);
    NoIssuance(s.db, e);
    var content := FreshContent(env, s.log);
    var step := Consume(t, DoConsumeRow(e, content, true));
    Consumes(env, s, t, use, e, content);
    StaysWritable(env, s, step);
    FromRowConsumed(env, Next(env, s, step), t, e, use);
    Onward(env, s, step, use.capability.terms.subject.request);
  }

  lemma NoIssuance(db: Store.Tables, e: Id)
    requires Store.Sound(db) && e !in db.executions
    ensures Unused(db, e)
  {
    forall k <- db.totp
      ensures db.totp[k] != e
    {
      assert Store.IssuedTo(db, k, db.totp[k]);
    }
  }

  // ------------------------------------------------------------ OAuth callback

  lemma SpendsEntry(env: Env, s: State, t: nat, id: Id, r: Id)
    requires Was(s, t) == Some(OAuthSpent(id, r))
    ensures var s' := Next(env, s, Callback(t, DoSpendOAuthEntry(false)));
            s' == s.(threads := s.threads[t := Reporting(r, RequestState.RequestFailed, true)],
                     capabilities := s'.capabilities)
  {
    hide Next, WithSpent;
    CallbackIs(env, s, t, DoSpendOAuthEntry(false));
  }

  lemma FromOAuthSpent(env: Env, s: State, t: nat, id: Id, r: Id)
    requires Was(s, t) == Some(OAuthSpent(id, r))
    ensures Overwritable(env, s, r)
  {
    hide Run, Next, Overwritable;
    SpendsEntry(env, s, t, id, r);
    FromReporting(env, Next(env, s, Callback(t, DoSpendOAuthEntry(false))), t, r, RequestState.RequestFailed, true);
    Onward(env, s, Callback(t, DoSpendOAuthEntry(false)), r);
  }

  lemma SpendFails(env: Env, s: State, t: nat, id: Id, r: Id)
    requires Was(s, t) == Some(OAuthTaken(id, r))
    ensures Next(env, s, Callback(t, DoSpendOAuthRow(false)))
            == s.(threads := s.threads[t := Reporting(r, RequestState.RequestFailed, true)])
  {
    hide Next, Store.ConsumeOAuth;
    CallbackIs(env, s, t, DoSpendOAuthRow(false));
  }

  lemma FromOAuthTaken(env: Env, s: State, t: nat, id: Id, r: Id)
    requires Was(s, t) == Some(OAuthTaken(id, r))
    ensures Overwritable(env, s, r)
  {
    hide Run, Next, Overwritable;
    SpendFails(env, s, t, id, r);
    FromReporting(env, Next(env, s, Callback(t, DoSpendOAuthRow(false))), t, r, RequestState.RequestFailed, true);
    Onward(env, s, Callback(t, DoSpendOAuthRow(false)), r);
  }

  predicate Pending(s: State, id: Id, flow: PendingOAuth) {
    id in s.oauth && s.oauth[id] == flow
  }

  lemma Takes(env: Env, s: State, t: nat, id: Id, flow: PendingOAuth)
    requires Was(s, t) == Some(OAuthFound(id)) && Pending(s, id, flow)
    ensures Next(env, s, Callback(t, DoTakeOAuth(flow.session, flow.tab)))
            == s.(threads := s.threads[t := OAuthTaken(id, flow.request)], oauth := s.oauth - {id})
  {
    hide Next;
    CallbackIs(env, s, t, DoTakeOAuth(flow.session, flow.tab));
  }

  lemma FromOAuthFound(env: Env, s: State, t: nat, id: Id, flow: PendingOAuth)
    requires Was(s, t) == Some(OAuthFound(id)) && Pending(s, id, flow)
    ensures Overwritable(env, s, flow.request)
  {
    hide Run, Next, Overwritable, Pending;
    var step := Callback(t, DoTakeOAuth(flow.session, flow.tab));
    Takes(env, s, t, id, flow);
    FromOAuthTaken(env, Next(env, s, step), t, id, flow.request);
    Onward(env, s, step, flow.request);
  }

  /** The token that was minted for an entry. */
  function TokenOf(env: Env, c: Capability): Claims {
    Verifier.MintClaims(c.terms, env.audience, env.issuerKey)
  }

  predicate Holds(s: State, id: Id, c: Capability) {
    id in s.capabilities && s.capabilities[id] == c && c.terms.id == id
  }

  lemma BeginsCallback(env: Env, s: State, t: nat, id: Id, c: Capability)
    requires t !in s.threads && Holds(s, id, c)
    ensures Next(env, s, Callback(t, DoBeginOAuth(TokenOf(env, c)))) == s.(threads := s.threads[t := OAuthFound(id)])
  {
    hide Next;
    CallbackIs(env, s, t, DoBeginOAuth(TokenOf(env, c)));
  }

  lemma FromFlow(env: Env, s: State, id: Id, flow: PendingOAuth, c: Capability)
    requires Pending(s, id, flow) && Holds(s, id, c)
    ensures Overwritable(env, s, flow.request)
  {
    hide Run, Next, Overwritable, Holds, TokenOf;
    var t := FreshThread(s.threads.Keys);
    var step := Callback(t, DoBeginOAuth(TokenOf(env, c)));
    BeginsCallback(env, s, t, id, c);
    FromOAuthFound(env, Next(env, s, step), t, id, flow);
    Onward(env, s, step, flow.request);
  }

  // --------------------------------------------------------------- the theorem

  /** A thread that carries `r` can report on it. */
  lemma CarrierOverwrites(env: Env, s: State, t: nat, r: Id)
    requires Grounded(s) && t in s.threads && Carries(s, s.threads[t], r) && r in s.requests
    ensures Overwritable(env, s, r)
  {
    hide Overwritable, Grounded, KeyWorks, SequencesBelow, StillConsumable, RowPending;
    GroundedLog(s);
    if Vouched(s.threads[t]) {
      VouchedHasKey(s, t);
    }
    match s.threads[t]
    case Admitted(_, agent) => FromAdmitted(env, s, t, r, agent);
    case Bound(_, agent) => FromBound(env, s, t, r, agent);
    case Screening(_, _, _) => FromEarly(env, s, t, r);
    case Screened(_, _, _) => FromEarly(env, s, t, r);
    case SessionSeen(_, _, _, _, _) => FromEarly(env, s, t, r);
    case Measured(_, _, _, _) => FromEarly(env, s, t, r);
    case Authorized(a) => FromAuthorized(env, s, t, a);
    case Granting(a, standing) => FromGranting(env, s, t, a, standing);
    case Touched(a, standing) => FromTouched(env, s, t, a, standing);
    case Requesting(a) => FromRequesting(env, s, t, a);
    case ApprovalStored(id, pending) => FromApprovalStored(env, s, t, id, pending);
    case Deciding(id, pending) => FromDeciding(env, s, t, id, pending);
    case Judged(id, pending, decision, v) => FromJudged(env, s, t, id, pending, decision, v);
    case DecisionStored(id, pending, decision, v) => FromDecisionStored(env, s, t, id, pending, decision, v);
    case Minting(a, authority) => FromMinting(env, s, t, a, authority);
    case RowMinted(c, generator) => FromRowMinted(env, s, t, c, generator);
    case EntryMinted(c) => FromEntryMinted(env, s, t, c);
    case Verified(use) => FromVerified(env, s, t, use);
    case RowConsumed(e, use) => FromRowConsumed(env, s, t, e, use);
    case EntryConsumed(e, use) => FromEntryConsumed(env, s, t, e, use);
    case RowFinished(e, outcome) => FromRowFinished(env, s, t, e, outcome, r);
    case OAuthFound(id) => FromOAuthFound(env, s, t, id, s.oauth[id]);
    case OAuthTaken(id, _) => FromOAuthTaken(env, s, t, id, r);
    case OAuthSpent(id, _) => FromOAuthSpent(env, s, t, id, r);
    case Reporting(_, state, upsert) => FromReporting(env, s, t, r, state, upsert);
  }

  lemma GroundedLog(s: State)
    requires Grounded(s)
    ensures SequencesBelow(s.log) && Store.Sound(s.db)
    ensures s.approvals != map[] || s.executions != map[] ==> KeyWorks(s.log)
  {
  }

  lemma VouchedHasKey(s: State, t: nat)
    requires Grounded(s) && t in s.threads && Vouched(s.threads[t])
    ensures KeyWorks(s.log)
  {
  }

  lemma FlowHasEntry(s: State, id: Id)
    requires Grounded(s) && id in s.oauth
    ensures id in s.capabilities && s.capabilities[id].terms.id == id
  {
    hide BrokerBinding.RowsOk, BrokerBinding.PointsOk, BrokerBinding.RunsOk, BrokerBinding.MintsOk;
    assert BrokerBinding.EntriesOk(s.capabilities, s.history.mints);
  }

  lemma LooseOverwrites(env: Env, s: State, r: Id)
    requires Grounded(s) && Loose(s, r) && r in s.requests
    ensures Overwritable(env, s, r)
  {
    hide Overwritable, Grounded, KeyWorks, SequencesBelow, Carries, RowPending;
    GroundedLog(s);
    if t :| t in s.threads && Carries(s, s.threads[t], r) {
      CarrierOverwrites(env, s, t, r);
    } else if id :| id in s.approvals && s.approvals[id].authorization.subject.request == r && RowPending(s.db, id) {
      FromApproval(env, s, id, s.approvals[id]);
    } else if e :| e in s.executions && s.executions[e].request == r {
      FromExecution(env, s, e, r);
    } else {
      var id :| id in s.oauth && s.oauth[id].request == r;
      FlowHasEntry(s, id);
      FromFlow(env, s, id, s.oauth[id], s.capabilities[id]);
    }
  }

  /** Cancelling leaves the request's entries dead, and nothing else moves. */
  lemma Cancels(s: State, agent: Id, r: Id)
    requires Grounded(s) && Cancellable(s, agent, r)
    ensures var s' := Cancel(s, agent, r);
            && IsCancelled(s', r) && r in s'.fingerprints && EntriesDead(s', r)
            && (Loose(s', r) <==> Loose(s, r))
  {
    hide BrokerBinding.BindingsOk, Carries;
    var s' := Cancel(s, agent, r);
    forall t <- s.threads
      ensures Carries(s', s.threads[t], r) <==> Carries(s, s.threads[t], r)
    {
      CarriesAlike(s, s', s.threads[t], r);
    }
  }

  lemma CarriesAlike(s: State, s': State, p: Point, r: Id)
    requires s'.db == s.db && s'.executions == s.executions && s'.oauth == s.oauth
    ensures Carries(s', p, r) <==> Carries(s, p, r)
  {
  }

  lemma SettledUnlessLoose(s: State, r: Id)
    requires IsCancelled(s, r) && r in s.fingerprints && EntriesDead(s, r) && !Loose(s, r)
    ensures Settled(s, r)
  {
    hide Carries;
  }

  /** In every reachable state, for every request that can be cancelled: it stays
      cancelled in every continuation of the process if and only if, at the
      cancel, nothing is left that can report on it. */
  lemma CancelSticksIff(
    env: Env, signer: Ledger.Signer, policyHash: Bytes, past: seq<Step>, agent: Id, r: Id)
    requires Cancellable(Run(env, Initial(signer, policyHash), past), agent, r)
    ensures var s := Run(env, Initial(signer, policyHash), past);
            Sticks(env, Cancel(s, agent, r), r) <==> !Loose(s, r)
  {
    hide Run, Grounded, Loose, Settled, Cancel, EntriesDead, IsCancelled, Initial;
    var s := Run(env, Initial(signer, policyHash), past);
    var s' := Cancel(s, agent, r);
    ReachedIsGrounded(env, signer, policyHash, past);
    Cancels(s, agent, r);
    CancelIsGrounded(env, s, agent, r);
    if Loose(s, r) {
      CancelledIsThere(s', r);
      LooseOverwrites(env, s', r);
    } else {
      SettledUnlessLoose(s', r);
      forall steps: seq<Step> | NoRestart(steps)
        ensures IsCancelled(Run(env, s', steps), r)
      {
        SettledRun(env, s', steps, r);
      }
    }
  }

  lemma CancelledIsThere(s: State, r: Id)
    requires IsCancelled(s, r)
    ensures r in s.requests
  {
  }

  lemma CancelIsGrounded(env: Env, s: State, agent: Id, r: Id)
    requires Grounded(s)
    ensures Grounded(Cancel(s, agent, r))
  {
    hide Grounded, Cancel;
    GroundedStep(env, s, Withdraw(0, DoCancel(agent, r)));
  }
}
