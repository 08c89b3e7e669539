/** What cancelling a request is worth. The handlers write request states without
    asking what was there, so a cancelled request stays cancelled if and only if
    nothing was left, when it was cancelled, that could still report on it. */
module BrokerCancel {
  import opened ByteStrings
  import opened Wrappers
  import opened Domain
  import opened Broker
  import opened BrokerFrame
  import opened BrokerReach
  import opened BrokerProgress
  import BrokerAuthority
  import BrokerBinding
  import BrokerDurable
  import Ledger
  import Store

  /** The consume of a copy that passed the verifier would still go through. */
  predicate StillConsumable(db: Store.Tables, use: Use) {
    && Store.Consumable(db, use.capability.terms.id)
    && (TotpClaim(use).Some? ==> TotpClaim(use).value !in db.totp)
  }

  /** The thread may yet write the state of request `r`. A decision counts while
      its row is pending, a verified copy while it can still be consumed, and a
      report unless what it reports is the cancellation. */
  predicate Carries(s: State, p: Point, r: Id) {
    && RequestOf(s, p) == Some(r)
    && match p
       case Deciding(id, _) => RowPending(s.db, id)
       case Judged(id, _, _, _) => RowPending(s.db, id)
       case Verified(use) => StillConsumable(s.db, use)
       case Reporting(_, state, _) => state != Cancelled
       case _ => true
  }

  /** Something is left that can report on `r`: a thread, a pending approval, a
      tracked execution, an OAuth flow. */
  ghost predicate Loose(s: State, r: Id) {
    || (exists t :: t in s.threads && Carries(s, s.threads[t], r))
    || (exists id :: id in s.approvals && s.approvals[id].authorization.subject.request == r && RowPending(s.db, id))
    || (exists e :: e in s.executions && s.executions[e].request == r)
    || (exists id :: id in s.oauth && s.oauth[id].request == r)
  }

  predicate IsCancelled(s: State, r: Id) {
    r in s.requests && s.requests[r] == Cancelled
  }

  /** Whatever this process does from here on, the request stays cancelled. */
  ghost predicate Sticks(env: Env, s: State, r: Id) {
    forall steps: seq<Step> :: NoRestart(steps) ==> IsCancelled(Run(env, s, steps), r)
  }

  // ---------------------------------------------- nothing loose: it stays so

  ghost predicate EntriesDead(s: State, r: Id) {
    forall id <- s.capabilities :: s.capabilities[id].terms.subject.request == r ==> !s.capabilities[id].IsLive()
  }

  ghost predicate NoApproval(s: State, r: Id) {
    forall id <- s.approvals :: s.approvals[id].authorization.subject.request == r ==> !RowPending(s.db, id)
  }

  ghost predicate NoExecution(s: State, r: Id) {
    forall e <- s.executions :: s.executions[e].request != r
  }

  ghost predicate NoFlow(s: State, r: Id) {
    forall id <- s.oauth :: s.oauth[id].request != r
  }

  ghost predicate NoCarrier(s: State, r: Id) {
    forall t <- s.threads :: !Carries(s, s.threads[t], r)
  }

  ghost predicate Settled(s: State, r: Id) {
    && IsCancelled(s, r) && r in s.fingerprints && EntriesDead(s, r)
    && NoApproval(s, r) && NoExecution(s, r) && NoFlow(s, r) && NoCarrier(s, r)
  }

  /** Decided stays decided, spent stays spent, claimed stays claimed. */
  ghost predicate NothingReopens(db: Store.Tables, next: Store.Tables) {
    && (forall id <- db.approvals :: RowPending(next, id) ==> RowPending(db, id))
    && (forall id <- db.capabilities :: Store.Consumable(next, id) ==> Store.Consumable(db, id))
    && db.totp.Keys <= next.totp.Keys
  }

  lemma OpReopensNothing(db: Store.Tables, op: Store.Op)
    requires op.OpDecide? ==> op.decision != Store.Pending
    ensures NothingReopens(db, Store.Apply(db, op))
  {
  }

  lemma SameReopensNothing(db: Store.Tables)
    ensures NothingReopens(db, db)
  {
  }

  lemma DecisionsDecide(s: State, step: Step)
    requires BrokerAuthority.AuthorityOk(s)
    ensures var op := BrokerDurable.Transaction(s, step);
            op.Some? && op.value.OpDecide? ==> op.value.decision != Store.Pending
  {
    hide BrokerAuthority.AuthorityOk;
    match step
    case Decide(t, DoStoreDecision(_, _)) =>
      if t in s.threads && s.threads[t].Judged? {
        BrokerAuthority.JudgedDecides(s, t);
      }
    case _ =>
  }

  lemma StepReopensNothing(env: Env, s: State, step: Step)
    requires BrokerAuthority.AuthorityOk(s)
    ensures NothingReopens(s.db, Next(env, s, step).db)
  {
    hide Next, NothingReopens, BrokerDurable.Transaction, Store.Apply, BrokerAuthority.AuthorityOk;
    BrokerDurable.StepDb(env, s, step);
    SameReopensNothing(s.db);
    DecisionsDecide(s, step);
    if BrokerDurable.Transaction(s, step).Some? {
      OpReopensNothing(s.db, BrokerDurable.Transaction(s, step).value);
    }
  }

  // the request's own state

  predicate RequestIdle(step: Step) {
    match step
    case Ask(_, DoMarkRequested(_)) => false
    case Ask(_, DoReport) => false
    case Withdraw(_, DoCancel(_, _)) => false
    case World(DoRestart(_, _, _)) => false
    case _ => true
  }

  lemma RequestIdleWrites(step: Step)
    requires RequestIdle(step)
    ensures !IsRestart(step) && Requests !in Written(step)
  {
  }

  lemma MarkStays(s: State, t: nat, now: int, r: Id)
    requires IsCancelled(s, r) && NoCarrier(s, r)
    ensures IsCancelled(MarkRequested(s, t, now), r)
  {
    hide NoCarrier, Carries;
    if t in s.threads && s.threads[t].Bound? {
      BoundCarries(s, t, r);
    }
  }

  lemma BoundCarries(s: State, t: nat, r: Id)
    requires NoCarrier(s, r) && t in s.threads && s.threads[t].Bound?
    ensures s.threads[t].request != r
  {
    assert !Carries(s, s.threads[t], r);
  }

  lemma ReportStays(s: State, t: nat, r: Id)
    requires IsCancelled(s, r) && NoCarrier(s, r)
    ensures IsCancelled(Report(s, t), r)
  {
    hide NoCarrier, Carries, Continued;
    if t in s.threads && s.threads[t].Reporting? {
      ReportCarries(s, t, r);
    }
  }

  lemma ReportCarries(s: State, t: nat, r: Id)
    requires NoCarrier(s, r) && t in s.threads && s.threads[t].Reporting?
    ensures s.threads[t].request != r || s.threads[t].state == Cancelled
  {
    assert !Carries(s, s.threads[t], r);
  }

  lemma CancelStays(s: State, agent: Id, request: Id, r: Id)
    requires IsCancelled(s, r)
    ensures IsCancelled(Cancel(s, agent, request), r)
  {
    hide RevokedAmong;
  }

  lemma RequestStays(env: Env, s: State, step: Step, r: Id)
    requires IsCancelled(s, r) && NoCarrier(s, r) && !IsRestart(step)
    ensures IsCancelled(Next(env, s, step), r)
  {
    hide IsCancelled, NoCarrier, MarkRequested, Report, Cancel;
    match step
    case Ask(t, DoMarkRequested(now)) => MarkStays(s, t, now, r);
    case Ask(t, DoReport) => ReportStays(s, t, r);
    case Withdraw(_, DoCancel(agent, request)) => CancelStays(s, agent, request, r);
    case _ => IdleRequestStays(env, s, step, r);
  }

  lemma IdleRequestStays(env: Env, s: State, step: Step, r: Id)
    requires IsCancelled(s, r) && RequestIdle(step)
    ensures IsCancelled(Next(env, s, step), r)
  {
    hide Next, RequestIdle, Written;
    RequestIdleWrites(step);
    StepFrame(env, s, step);
  }

  // known requests stay known

  lemma KnownStays(env: Env, s: State, step: Step, r: Id)
    requires r in s.fingerprints && !IsRestart(step)
    ensures r in Next(env, s, step).fingerprints
  {
    hide Next;
    if Fingerprints in Written(step) {
      SubmitWrites(step);
      SubmitAdds(env, s, step, r);
    } else {
      StepFrame(env, s, step);
    }
  }

  lemma SubmitWrites(step: Step)
    requires Fingerprints in Written(step)
    ensures step.Ask? && step.ask.DoSubmit?
  {
  }

  lemma SubmitAdds(env: Env, s: State, step: Step, r: Id)
    requires r in s.fingerprints && step.Ask? && step.ask.DoSubmit?
    ensures r in Next(env, s, step).fingerprints
  {
  }

  // entries

  predicate EntriesIdle(step: Step) {
    match step
    case Issue(_, DoPublishCapability) => false
    case Consume(_, DoWriteBack) => false
    case Withdraw(_, DoCancel(_, _)) => false
    case Withdraw(_, DoRevokeSessionEntries) => false
    case Withdraw(_, DoRevokePolicyEntries) => false
    case Withdraw(_, DoRevokeEntry) => false
    case Withdraw(_, DoDisableAgent(_)) => false
    case Callback(_, DoSpendOAuthEntry(_)) => false
    case World(DoRestart(_, _, _)) => false
    case _ => true
  }

  lemma EntriesIdleWrites(step: Step)
    requires EntriesIdle(step)
    ensures !IsRestart(step) && EntryStates !in Written(step)
  {
  }

  lemma PublishKeepsDead(s: State, t: nat, r: Id)
    requires EntriesDead(s, r) && NoCarrier(s, r)
    ensures EntriesDead(PublishCapability(s, t), r)
  {
    assert t in s.threads ==> !Carries(s, s.threads[t], r);
  }

  lemma WriteBackKeepsDead(s: State, t: nat, r: Id)
    requires EntriesDead(s, r) && NoCarrier(s, r)
    ensures EntriesDead(WriteBack(s, t), r)
  {
    assert t in s.threads ==> !Carries(s, s.threads[t], r);
  }

  ghost predicate OnlyEnd(entries: map<Id, Capability>, entries': map<Id, Capability>) {
    forall id <- entries' ::
      id in entries && entries'[id].terms == entries[id].terms && (entries'[id].IsLive() ==> entries[id].IsLive())
  }

  /** Entries that only end keep dead ones dead. */
  lemma EndingKeepsDead(s: State, s': State, r: Id)
    requires EntriesDead(s, r) && OnlyEnd(s.capabilities, s'.capabilities)
    ensures EntriesDead(s', r)
  {
  }

  lemma RevokedOnlyEnd(entries: map<Id, Capability>, ids: set<Id>)
    ensures OnlyEnd(entries, RevokedAmong(entries, ids)) && OnlyEnd(entries, entries)
  {
  }

  lemma CancelKeepsDead(s: State, agent: Id, request: Id, r: Id)
    requires EntriesDead(s, r)
    ensures EntriesDead(Cancel(s, agent, request), r)
  {
    hide RevokedAmong, OfRequest, EntriesDead, OnlyEnd;
    RevokedOnlyEnd(s.capabilities, OfRequest(s.capabilities, request));
    EndingKeepsDead(s, Cancel(s, agent, request), r);
  }

  lemma DisableAgentKeepsDead(s: State, agent: Id, r: Id)
    requires EntriesDead(s, r)
    ensures EntriesDead(DisableAgent(s, agent), r)
  {
    hide RevokedAmong, OfAgent, EntriesDead, OnlyEnd;
    RevokedOnlyEnd(s.capabilities, OfAgent(s.capabilities, agent));
    EndingKeepsDead(s, DisableAgent(s, agent), r);
  }

  lemma RevokeSessionEntriesKeepsDead(s: State, t: nat, r: Id)
    requires EntriesDead(s, r)
    ensures EntriesDead(RevokeSessionEntries(s, t), r)
  {
    hide RevokedAmong, OfSessions, EntriesDead, Continued, OnlyEnd;
    if t in s.threads && s.threads[t].SessionsSwept? {
      RevokedOnlyEnd(s.capabilities, OfSessions(s.capabilities, s.threads[t].stale));
      EndingKeepsDead(s, RevokeSessionEntries(s, t), r);
    }
  }

  lemma RevokePolicyEntriesKeepsDead(s: State, t: nat, r: Id)
    requires EntriesDead(s, r)
    ensures EntriesDead(RevokePolicyEntries(s, t), r)
  {
    hide RevokedAmong, OfOtherPolicies, EntriesDead, Continued, OnlyEnd;
    if t in s.threads && s.threads[t].PolicyReplaced? {
      RevokedOnlyEnd(s.capabilities, OfOtherPolicies(s.capabilities, s.threads[t].hash));
      EndingKeepsDead(s, RevokePolicyEntries(s, t), r);
    }
  }

  lemma RevokeEntryKeepsDead(s: State, t: nat, r: Id)
    requires EntriesDead(s, r)
    ensures EntriesDead(RevokeEntry(s, t), r)
  {
  }

  lemma SpendOAuthEntryKeepsDead(s: State, t: nat, exchanged: bool, r: Id)
    requires EntriesDead(s, r)
    ensures EntriesDead(SpendOAuthEntry(s, t, exchanged), r)
  {
  }

  lemma EntriesStayDead(env: Env, s: State, step: Step, r: Id)
    requires EntriesDead(s, r) && NoCarrier(s, r) && !IsRestart(step)
    ensures EntriesDead(Next(env, s, step), r)
  {
    hide EntriesDead, NoCarrier, PublishCapability, WriteBack, Cancel, RevokeSessionEntries, RevokePolicyEntries,
         RevokeEntry, DisableAgent, SpendOAuthEntry;
    match step
    case Issue(t, DoPublishCapability) => PublishKeepsDead(s, t, r);
    case Consume(t, DoWriteBack) => WriteBackKeepsDead(s, t, r);
    case Withdraw(_, DoCancel(agent, request)) => CancelKeepsDead(s, agent, request, r);
    case Withdraw(t, DoRevokeSessionEntries) => RevokeSessionEntriesKeepsDead(s, t, r);
    case Withdraw(t, DoRevokePolicyEntries) => RevokePolicyEntriesKeepsDead(s, t, r);
    case Withdraw(t, DoRevokeEntry) => RevokeEntryKeepsDead(s, t, r);
    case Withdraw(_, DoDisableAgent(agent)) => DisableAgentKeepsDead(s, agent, r);
    case Callback(t, DoSpendOAuthEntry(exchanged)) => SpendOAuthEntryKeepsDead(s, t, exchanged, r);
    case _ => IdleEntriesStayDead(env, s, step, r);
  }

  lemma IdleEntriesStayDead(env: Env, s: State, step: Step, r: Id)
    requires EntriesDead(s, r) && EntriesIdle(step)
    ensures EntriesDead(Next(env, s, step), r)
  {
    hide Next, EntriesIdle, Written;
    EntriesIdleWrites(step);
    StepFrame(env, s, step);
  }

  // approvals, executions, flows

  predicate LeftIdle(step: Step) {
    match step
    case Ask(_, DoPublishApproval) => false
    case Decide(_, DoDropApproval) => false
    case Poll(_, DoInspectOffer(_, _)) => false
    case Consume(_, DoTrackExecution) => false
    case Finish(_, DoWriteExecution) => false
    case Callback(_, DoTakeOAuth(_, _)) => false
    case World(DoRestart(_, _, _)) => false
    case _ => true
  }

  lemma LeftIdleWrites(step: Step)
    requires LeftIdle(step)
    ensures !IsRestart(step) && Written(step) !! {Approvals, Part.Executions, Part.OAuth}
  {
  }

  /** Nothing left for `r` but threads. */
  ghost predicate NothingLeft(s: State, r: Id) {
    NoApproval(s, r) && NoExecution(s, r) && NoFlow(s, r)
  }

  lemma ApprovalsBacked(s: State)
    requires BrokerAuthority.AuthorityOk(s)
    ensures s.approvals.Keys <= s.db.approvals.Keys
  {
  }

  lemma PublishLeavesNothing(s: State, t: nat, r: Id)
    requires NothingLeft(s, r) && NoCarrier(s, r)
    ensures NothingLeft(PublishApproval(s, t), r)
  {
    assert t in s.threads ==> !Carries(s, s.threads[t], r);
  }

  lemma DropLeavesNothing(s: State, t: nat, r: Id)
    requires NothingLeft(s, r)
    ensures NothingLeft(DropApproval(s, t), r)
  {
  }

  lemma InspectLeavesNothing(s: State, t: nat, now: int, recipeUsable: bool, r: Id)
    requires NothingLeft(s, r) && EntriesDead(s, r)
    ensures NothingLeft(InspectOffer(s, t, now, recipeUsable), r)
  {
  }

  lemma TrackLeavesNothing(s: State, t: nat, r: Id)
    requires NothingLeft(s, r) && NoCarrier(s, r)
    ensures NothingLeft(TrackExecution(s, t), r)
  {
    assert t in s.threads ==> !Carries(s, s.threads[t], r);
  }

  lemma WriteExecutionLeavesNothing(s: State, t: nat, r: Id)
    requires NothingLeft(s, r)
    ensures NothingLeft(WriteExecution(s, t), r)
  {
  }

  lemma TakeLeavesNothing(s: State, t: nat, session: Id, tab: nat, r: Id)
    requires NothingLeft(s, r)
    ensures NothingLeft(TakeOAuth(s, t, session, tab), r)
  {
  }

  lemma IdleLeavesNothing(env: Env, s: State, step: Step, r: Id)
    requires NothingLeft(s, r) && BrokerAuthority.AuthorityOk(s) && LeftIdle(step)
    ensures NothingLeft(Next(env, s, step), r)
  {
    hide Next, LeftIdle, Written, BrokerAuthority.AuthorityOk, RowPending;
    LeftIdleWrites(step);
    StepFrame(env, s, step);
    ApprovalsBacked(s);
    StepReopensNothing(env, s, step);
  }

  lemma NothingIsLeft(env: Env, s: State, step: Step, r: Id)
    requires NothingLeft(s, r) && NoCarrier(s, r) && EntriesDead(s, r) && BrokerAuthority.AuthorityOk(s)
    requires !IsRestart(step)
    ensures NothingLeft(Next(env, s, step), r)
  {
    hide NothingLeft, NoCarrier, EntriesDead, BrokerAuthority.AuthorityOk, PublishApproval, DropApproval,
         InspectOffer,
         TrackExecution, WriteExecution, TakeOAuth;
    match step
    case Ask(t, DoPublishApproval) => PublishLeavesNothing(s, t, r);
    case Decide(t, DoDropApproval) => DropLeavesNothing(s, t, r);
    case Poll(t, DoInspectOffer(now, recipeUsable)) => InspectLeavesNothing(s, t, now, recipeUsable, r);
    case Consume(t, DoTrackExecution) => TrackLeavesNothing(s, t, r);
    case Finish(t, DoWriteExecution) => WriteExecutionLeavesNothing(s, t, r);
    case Callback(t, DoTakeOAuth(session, tab)) => TakeLeavesNothing(s, t, session, tab, r);
    case _ => IdleLeavesNothing(env, s, step, r);
  }

  // threads

  /** What a thread speaks of exists in the store. */
  predicate Based(db: Store.Tables, p: Point) {
    match p
    case Deciding(id, _) => id in db.approvals
    case Judged(id, _, _, _) => id in db.approvals
    case Verified(use) => use.capability.terms.id in db.capabilities
    case _ => true
  }

  lemma ThreadsBased(s: State, t: nat)
    requires BrokerAuthority.AuthorityOk(s) && BrokerBinding.BindingsOk(s) && t in s.threads
    ensures Based(s.db, s.threads[t])
  {
    hide BrokerAuthority.AuthorityOk, BrokerBinding.BindingsOk, BrokerBinding.RowsOk;
    CopyIsBacked(s, t);
    BrokerBinding.PointIs(s, t);
    MintsAreRows(s);
  }

  lemma CopyIsBacked(s: State, t: nat)
    requires BrokerAuthority.AuthorityOk(s) && t in s.threads
    ensures BrokerAuthority.CopyBacked(s.threads[t], s.db.approvals, s.boot)
  {
  }

  lemma MintsAreRows(s: State)
    requires BrokerBinding.BindingsOk(s)
    ensures s.history.mints.Keys == s.db.capabilities.Keys
  {
  }

  /** A thread that stays where it is gains nothing to report. */
  lemma CarriesAsBefore(s: State, s': State, p: Point, r: Id)
    requires NothingReopens(s.db, s'.db) && NoExecution(s', r) && NoFlow(s', r) && Based(s.db, p)
    requires Carries(s', p, r)
    ensures Carries(s, p, r)
  {
    hide TotpClaim, Store.Consumable;
  }

  /** What moved, moved from a thread that already carried `r`. */
  lemma AuthorizedCarried(s: State, s': State, step: Step, t: nat, q: Point, r: Id)
    requires Leads(s, step, Was(s, t), q) && Carries(s', q, r) && AuthorizationOf(q).Some?
    requires !q.Deciding? && !q.Judged? && !q.DecisionStored?
    ensures t in s.threads && Carries(s, s.threads[t], r)
  {
    hide Covering, StillConsumable, PendingFor;
  }

  lemma DecidingCarried(s: State, s': State, step: Step, t: nat, q: Point, r: Id)
    requires Leads(s, step, Was(s, t), q) && Carries(s', q, r) && q.Deciding?
    requires NothingReopens(s.db, s'.db) && s.approvals.Keys <= s.db.approvals.Keys
    ensures q.approval in s.approvals && s.approvals[q.approval].authorization.subject.request == r
    ensures RowPending(s.db, q.approval)
  {
  }

  lemma JudgedCarried(s: State, s': State, step: Step, t: nat, q: Point, r: Id)
    requires Leads(s, step, Was(s, t), q) && Carries(s', q, r) && q.Judged?
    requires NothingReopens(s.db, s'.db) && (t in s.threads ==> Based(s.db, s.threads[t]))
    ensures t in s.threads && Carries(s, s.threads[t], r)
  {
    hide Convincing;
  }

  /** Only a pending row is decided. */
  lemma DecidedWasPending(env: Env, s: State, t: nat, content: Ledger.EventContent, stored: bool)
    requires t in s.threads && s.threads[t].Judged? && t in StoreDecision(env, s, t, content, stored).threads
    ensures RowPending(s.db, s.threads[t].approval)
  {
    hide Transact;
  }

  /** Only what can be consumed is. */
  lemma ConsumedWasConsumable(
    env: Env, s: State, t: nat, execution: Id, content: Ledger.EventContent, stored: bool)
    requires t in s.threads && s.threads[t].Verified? && t in ConsumeRow(env, s, t, execution, content, stored).threads
    ensures StillConsumable(s.db, s.threads[t].use)
  {
    hide Transact, TotpClaim, Store.Consumable;
  }

  lemma DecidedFrom(s: State, step: Step, t: nat, q: Point)
    requires Leads(s, step, Was(s, t), q) && q.DecisionStored? && Actor(step) == Some(t)
    ensures step.Decide? && step.t == t && step.decide.DoStoreDecision?
    ensures Was(s, t) == Some(Judged(q.approval, q.pending, q.decision, q.verdict))
  {
  }

  lemma ConsumedFrom(s: State, step: Step, t: nat, q: Point)
    requires Leads(s, step, Was(s, t), q) && q.RowConsumed? && Actor(step) == Some(t)
    ensures step.Consume? && step.t == t && step.consume.DoConsumeRow? && Was(s, t) == Some(Verified(q.use))
  {
  }

  lemma DecisionCarried(env: Env, s: State, s': State, step: Step, t: nat, q: Point, r: Id)
    requires Actor(step) == Some(t) && s' == Next(env, s, step) && t in s'.threads && s'.threads[t] == q
    requires Leads(s, step, Was(s, t), q) && Carries(s', q, r) && q.DecisionStored?
    ensures t in s.threads && Carries(s, s.threads[t], r)
  {
    hide StoreDecision, StillConsumable, RowPending, Leads;
    DecidedFrom(s, step, t, q);
    DecidedWasPending(env, s, t, step.decide.content, step.decide.stored);
  }

  lemma ConsumedCarried(env: Env, s: State, s': State, step: Step, t: nat, q: Point, r: Id)
    requires Actor(step) == Some(t) && s' == Next(env, s, step) && t in s'.threads && s'.threads[t] == q
    requires Leads(s, step, Was(s, t), q) && Carries(s', q, r) && q.RowConsumed?
    ensures t in s.threads && Carries(s, s.threads[t], r)
  {
    hide ConsumeRow, StillConsumable, RowPending, Leads;
    ConsumedFrom(s, step, t, q);
    ConsumedWasConsumable(env, s, t, step.consume.execution, step.consume.content, step.consume.stored);
  }

  lemma ReportCarried(s: State, s': State, step: Step, t: nat, q: Point, r: Id)
    requires Leads(s, step, Was(s, t), q) && Carries(s', q, r) && q.Reporting?
    ensures t in s.threads && Carries(s, s.threads[t], r)
  {
    hide StillConsumable, RowPending;
  }

  /** A dead entry passes no verifier. */
  lemma NothingPasses(s: State, s': State, step: Step, t: nat, q: Point, r: Id)
    requires Leads(s, step, Was(s, t), q) && q.Verified? && EntriesDead(s, r)
    ensures !Carries(s', q, r)
  {
    hide StillConsumable, CodesReady;
  }

  /** The request has not been judged yet. */
  predicate Unjudged(p: Point) {
    p.Admitted? || p.Bound? || p.Screening? || p.Screened? || p.SessionSeen? || p.Measured?
  }

  lemma AskingCarried(s: State, s': State, step: Step, t: nat, q: Point, r: Id)
    requires Leads(s, step, Was(s, t), q) && Carries(s', q, r) && Unjudged(q) && r in s.fingerprints
    ensures t in s.threads && Carries(s, s.threads[t], r)
  {
    hide StillConsumable, RowPending;
  }

  lemma OthersCarried(s: State, s': State, step: Step, t: nat, q: Point, r: Id)
    requires Leads(s, step, Was(s, t), q) && Carries(s', q, r) && !Unjudged(q)
    requires AuthorizationOf(q) == None && !q.RowConsumed? && !q.Reporting? && !q.Verified? && !q.RowMinted?
    requires NoFlow(s, r) && NoExecution(s', r) && NoFlow(s', r)
    ensures t in s.threads && Carries(s, s.threads[t], r)
  {
    hide StillConsumable, RowPending;
  }

  lemma MintCarried(s: State, s': State, step: Step, t: nat, q: Point, r: Id)
    requires Leads(s, step, Was(s, t), q) && Carries(s', q, r) && q.RowMinted?
    ensures t in s.threads && Carries(s, s.threads[t], r)
  {
    hide StillConsumable, RowPending;
  }

  /** Whoever moves cannot start to carry `r`. */
  lemma MoverCarriesNothing(env: Env, s: State, s': State, step: Step, t: nat, q: Point, r: Id)
    requires Grounded(s) && Settled(s, r) && NothingReopens(s.db, s'.db) && NoExecution(s', r) && NoFlow(s', r)
    requires Actor(step) == Some(t) && s' == Next(env, s, step) && t in s'.threads && s'.threads[t] == q
    requires Leads(s, step, Was(s, t), q)
    ensures !Carries(s', q, r)
  {
    hide Next, Leads, Carries, Grounded, NothingReopens, NoExecution, NoFlow, EntriesDead, Actor, Based, IsCancelled,
         RowPending;
    SettledCarriesNothing(s, t, r);
    if Carries(s', q, r) {
      GroundedAuthority(s);
      if t in s.threads {
        ThreadsBased(s, t);
      }
      ApprovalsBacked(s);
      if q.Deciding? {
        DecidingCarried(s, s', step, t, q, r);
      } else if q.Judged? {
        JudgedCarried(s, s', step, t, q, r);
      } else if q.DecisionStored? {
        DecisionCarried(env, s, s', step, t, q, r);
      } else if q.RowConsumed? {
        ConsumedCarried(env, s, s', step, t, q, r);
      } else if AuthorizationOf(q).Some? {
        AuthorizedCarried(s, s', step, t, q, r);
      } else if q.Reporting? {
        ReportCarried(s, s', step, t, q, r);
      } else if q.Verified? {
        NothingPasses(s, s', step, t, q, r);
      } else if q.RowMinted? {
        MintCarried(s, s', step, t, q, r);
      } else if Unjudged(q) {
        AskingCarried(s, s', step, t, q, r);
      } else {
        OthersCarried(s, s', step, t, q, r);
      }
    }
  }

  lemma SettledCarriesNothing(s: State, t: nat, r: Id)
    requires Settled(s, r)
    ensures t in s.threads ==> !Carries(s, s.threads[t], r)
  {
  }

  lemma GroundedAuthority(s: State)
    requires Grounded(s)
    ensures BrokerAuthority.AuthorityOk(s) && BrokerBinding.BindingsOk(s)
  {
  }

  lemma NoneCarries(env: Env, s: State, step: Step, r: Id)
    requires Grounded(s) && Settled(s, r) && !IsRestart(step)
    requires NoExecution(Next(env, s, step), r) && NoFlow(Next(env, s, step), r)
    ensures NoCarrier(Next(env, s, step), r)
  {
    hide Next, Leads, Carries, Grounded, NothingReopens, NoExecution, NoFlow, Settled, Based,
         BrokerAuthority.AuthorityOk,
         BrokerBinding.BindingsOk, Frame;
    var s' := Next(env, s, step);
    StepMoves(env, s, step);
    GroundedAuthority(s);
    StepReopensNothing(env, s, step);
    forall u <- s'.threads
      ensures !Carries(s', s'.threads[u], r)
    {
      if u in s.threads && s'.threads[u] == s.threads[u] {
        SettledCarriesNothing(s, u, r);
        ThreadsBased(s, u);
        if Carries(s', s.threads[u], r) {
          CarriesAsBefore(s, s', s.threads[u], r);
        }
      } else {
        MoverCarriesNothing(env, s, s', step, u, s'.threads[u], r);
      }
    }
  }

  lemma SettledStep(env: Env, s: State, step: Step, r: Id)
    requires Grounded(s) && Settled(s, r) && !IsRestart(step)
    ensures Settled(Next(env, s, step), r)
  {
    hide Next, Grounded, IsCancelled, EntriesDead, NoApproval, NoExecution, NoFlow, NoCarrier,
         BrokerAuthority.AuthorityOk, BrokerBinding.BindingsOk;
    GroundedAuthority(s);
    RequestStays(env, s, step, r);
    KnownStays(env, s, step, r);
    EntriesStayDead(env, s, step, r);
    NothingIsLeft(env, s, step, r);
    NoneCarries(env, s, step, r);
  }

  lemma {:induction false} SettledRun(env: Env, s: State, steps: seq<Step>, r: Id)
    requires Grounded(s) && Settled(s, r) && NoRestart(steps)
    ensures IsCancelled(Run(env, s, steps), r)
    decreases |steps|
  {
    hide Next, Grounded;
    if steps != [] {
      hide Settled;
      SettledStep(env, s, steps[0], r);
      GroundedStep(env, s, steps[0]);
      SettledRun(env, Next(env, s, steps[0]), steps[1..], r);
    }
  }
}
