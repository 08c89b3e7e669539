/** What a policy reload is worth. It revokes the rows of other policies, then
    replaces the policy, then revokes the entries; requests that were authorised
    before, or in the gap, still mint under the policy they were judged by. A
    reload keeps other policies out if and only if nothing of the kind was left. */
module BrokerReload {
  import opened ByteStrings
  import opened Wrappers
  import opened Domain
  import opened Broker
  import opened BrokerFrame
  import opened BrokerReach
  import opened BrokerProgress
  import opened BrokerCancel
  import BrokerAuthority
  import BrokerBinding
  import BrokerDurable
  import Ledger
  import Policy
  import Store

  predicate IsReload(step: Step) {
    step.Withdraw? && step.withdraw.DoReloadRows?
  }

  /** The run stays within one process and starts no other reload. */
  ghost predicate Undisturbed(steps: seq<Step>) {
    forall i :: 0 <= i < |steps| ==> !IsRestart(steps[i]) && !IsReload(steps[i])
  }

  /** The thread may yet mint under another policy than `hash`. */
  predicate CanMint(db: Store.Tables, p: Point, hash: Bytes) {
    && AuthorizationOf(p).Some? && AuthorizationOf(p).value.subject.policyHash != hash
    && match p
       case ApprovalStored(id, _) => RowPending(db, id)
       case Deciding(id, _) => RowPending(db, id)
       case Judged(id, _, decision, _) => decision == Store.Decision.Approved && RowPending(db, id)
       case DecisionStored(_, _, decision, _) => decision == Store.Decision.Approved
       case _ => true
  }

  /** Another policy is, or is about to be, the one requests are judged by. */
  ghost predicate OtherPolicy(s: State, hash: Bytes) {
    || (s.policyHash != hash && KeyWorks(s.log))
    || (exists t :: t in s.threads && s.threads[t].RowsRevoked? && s.threads[t].hash != hash)
  }

  /** A request that was judged by another policy is still on its way. */
  ghost predicate Straggler(s: State, hash: Bytes) {
    || (exists t :: t in s.threads && CanMint(s.db, s.threads[t], hash))
    || (exists id :: id in s.approvals && s.approvals[id].authorization.subject.policyHash != hash
                     && RowPending(s.db, id))
  }

  ghost predicate Exposed(s: State, hash: Bytes) {
    OtherPolicy(s, hash) || Straggler(s, hash)
  }

  /** A live row of another policy that was not there before. */
  ghost predicate StaleRow(db: Store.Tables, base: set<Id>, hash: Bytes) {
    exists id :: id in db.capabilities && id !in base && db.capabilities[id].IsLive()
                 && db.capabilities[id].policyHash != hash
  }

  ghost predicate Appears(env: Env, s: State, base: set<Id>, hash: Bytes) {
    exists steps: seq<Step> :: Undisturbed(steps) && StaleRow(Run(env, s, steps).db, base, hash)
  }

  // ------------------------------------------------------- exposed: it happens

  lemma Shown(env: Env, s: State, base: set<Id>, hash: Bytes)
    requires StaleRow(s.db, base, hash)
    ensures Appears(env, s, base, hash)
  {
    hide StaleRow, Next;
    assert Undisturbed([]) && Run(env, s, []) == s;
  }

  lemma Onward(env: Env, s: State, step: Step, base: set<Id>, hash: Bytes)
    requires !IsRestart(step) && !IsReload(step) && Appears(env, Next(env, s, step), base, hash)
    ensures Appears(env, s, base, hash)
  {
    hide StaleRow, Next;
    var rest: seq<Step> :| Undisturbed(rest) && StaleRow(Run(env, Next(env, s, step), rest).db, base, hash);
    var steps := [step] + rest;
    assert steps[0] == step && steps[1..] == rest;
    assert Undisturbed(steps);
    assert Run(env, s, steps) == Run(env, Next(env, s, step), rest);
  }

  /** Records can be stored, and `base` are rows there are. */
  ghost predicate Ready(s: State, base: set<Id>) {
    Writable(s.log) && base <= s.db.capabilities.Keys
  }

  lemma NewRowIsLive(a: Authorization, boot: nat)
    ensures NewRow(a, boot).IsLive() && NewRow(a, boot).policyHash == a.subject.policyHash
  {
  }

  /** Judged by another policy than `hash`. */
  predicate Other(a: Authorization, hash: Bytes) {
    a.subject.policyHash != hash
  }

  lemma FromMinting(env: Env, s: State, t: nat, a: Authorization, authority: Authority, base: set<Id>, hash: Bytes)
    requires Ready(s, base) && Was(s, t) == Some(Minting(a, authority)) && Other(a, hash)
    ensures Appears(env, s, base, hash)
  {
    hide Run, Next, Writable, Ledger.CreateEvent, Ledger.Append, NewCapability, NewRow, Appears;
    var id := FreshId(s.db.capabilities.Keys);
    var content := FreshContent(env, s.log);
    var step := Issue(t, DoMintRow(id, 0, content, true));
    Issues(env, s, t, a, authority, id, 0, content);
    NewRowIsLive(a, s.boot);
    Shown(env, Next(env, s, step), base, hash);
    Onward(env, s, step, base, hash);
  }

  lemma Uses(env: Env, s: State, t: nat, a: Authorization, standing: Standing, content: Ledger.EventContent)
    requires Was(s, t) == Some(Touched(a, standing)) && Recordable(env, s.log, content)
    ensures Next(env, s, Ask(t, DoRecordGrantUse(content, true)))
            == s.(threads := s.threads[t := Minting(a, ByGrant(standing))], log := LogWith(env, s.log, content))
  {
    hide Next, Ledger.CreateEvent, Ledger.Append;
    AskIs(env, s, t, DoRecordGrantUse(content, true));
  }

  lemma FromTouched(env: Env, s: State, t: nat, a: Authorization, standing: Standing, base: set<Id>, hash: Bytes)
    requires Ready(s, base) && Was(s, t) == Some(Touched(a, standing)) && Other(a, hash)
    ensures Appears(env, s, base, hash)
  {
    hide Run, Next, Writable, Appears, Other;
    var content := FreshContent(env, s.log);
    var step := Ask(t, DoRecordGrantUse(content, true));
    Uses(env, s, t, a, standing, content);
    StaysWritable(env, s, step);
    FromMinting(env, Next(env, s, step), t, a, ByGrant(standing), base, hash);
    Onward(env, s, step, base, hash);
  }

  lemma FromGranting(env: Env, s: State, t: nat, a: Authorization, standing: Standing, base: set<Id>, hash: Bytes)
    requires Ready(s, base) && Was(s, t) == Some(Granting(a, standing)) && Other(a, hash)
    ensures Appears(env, s, base, hash)
  {
    hide Run, Next, Writable, Appears, Other;
    Touches(env, s, t, a, standing);
    FromTouched(env, Next(env, s, Ask(t, DoTouchGrant(false))), t, a, standing, base, hash);
    Onward(env, s, Ask(t, DoTouchGrant(false)), base, hash);
  }

  lemma FromDecisionStored(
    env: Env, s: State, t: nat, id: Id, pending: PendingApproval, verdict: Verdict, base: set<Id>, hash: Bytes)
    requires Ready(s, base) && Was(s, t) == Some(DecisionStored(id, pending, Store.Decision.Approved, verdict))
    requires Other(pending.authorization, hash)
    ensures Appears(env, s, base, hash)
  {
    hide Run, Next, Writable, Appears, Other;
    var s' := Next(env, s, Decide(t, DoDropApproval));
    Drops(env, s, t, id, pending, Store.Decision.Approved, verdict);
    FromMinting(env, s', t, pending.authorization, ByApproval(verdict), base, hash);
    Onward(env, s, Decide(t, DoDropApproval), base, hash);
  }

  lemma FromJudged(
    env: Env, s: State, t: nat, id: Id, pending: PendingApproval, verdict: Verdict, base: set<Id>, hash: Bytes)
    requires Ready(s, base) && Was(s, t) == Some(Judged(id, pending, Store.Decision.Approved, verdict))
    requires RowPending(s.db, id) && Other(pending.authorization, hash)
    ensures Appears(env, s, base, hash)
  {
    hide Run, Next, Writable, Appears, RowPending, Other;
    var content := FreshContent(env, s.log);
    var step := Decide(t, DoStoreDecision(content, true));
    Decides(env, s, t, id, pending, Store.Decision.Approved, verdict, content);
    StaysWritable(env, s, step);
    FromDecisionStored(env, Next(env, s, step), t, id, pending, verdict, base, hash);
    Onward(env, s, step, base, hash);
  }

  /** The page that was measured, as it would look just before the approval
      expires. */
  function SamePage(pending: PendingApproval): Page {
    var b := pending.authorization.binding;
    Page(b.frame, b.topOrigin, b.frameOrigin, b.document, b.epoch, pending.expiresAt - 1)
  }

  /** The page is still the one that was measured. */
  predicate Unmoved(s: State, pending: PendingApproval) {
    var b := pending.authorization.binding;
    HasPage(s, b.session, b.tab) && PageOf(s, b.session, b.tab) == SamePage(pending)
  }

  function Agreeing(pending: PendingApproval): DecideStep {
    DoJudge(true, pending.digest, true, pending.expiresAt - 1)
  }

  function Agreed(id: Id, pending: PendingApproval): Verdict {
    Verdict(id, pending.digest, pending.requestedAt, pending.expiresAt - 1, SamePage(pending), true)
  }

  lemma Approves(env: Env, s: State, t: nat, id: Id, pending: PendingApproval)
    requires Was(s, t) == Some(Deciding(id, pending)) && Unmoved(s, pending)
    ensures Next(env, s, Decide(t, Agreeing(pending)))
            == s.(threads := s.threads[t := Judged(id, pending, Store.Decision.Approved, Agreed(id, pending))])
  {
    hide Next, PageOf;
    DecideIs(env, s, t, Agreeing(pending));
  }

  lemma FromUnmoved(env: Env, s: State, t: nat, id: Id, pending: PendingApproval, base: set<Id>, hash: Bytes)
    requires Ready(s, base) && Was(s, t) == Some(Deciding(id, pending)) && RowPending(s.db, id)
    requires Other(pending.authorization, hash) && Unmoved(s, pending)
    ensures Appears(env, s, base, hash)
  {
    hide Run, Next, Writable, Appears, RowPending, Unmoved, Other, Agreeing, Agreed;
    var step := Decide(t, Agreeing(pending));
    Approves(env, s, t, id, pending);
    FromJudged(env, Next(env, s, step), t, id, pending, Agreed(id, pending), base, hash);
    Onward(env, s, step, base, hash);
  }

  lemma FromDeciding(env: Env, s: State, t: nat, id: Id, pending: PendingApproval, base: set<Id>, hash: Bytes)
    requires Ready(s, base) && Was(s, t) == Some(Deciding(id, pending)) && RowPending(s.db, id)
    requires Other(pending.authorization, hash)
    ensures Appears(env, s, base, hash)
  {
    hide Run, Next, Writable, Appears, RowPending, HasPage, PageOf, Other;
    var b := pending.authorization.binding;
    var step := World(DoReportPage(b.session, b.tab, SamePage(pending)));
    Reports(env, s, b.session, b.tab, SamePage(pending));
    FromUnmoved(env, Next(env, s, step), t, id, pending, base, hash);
    Onward(env, s, step, base, hash);
  }

  lemma FromApproval(env: Env, s: State, id: Id, pending: PendingApproval, base: set<Id>, hash: Bytes)
    requires Ready(s, base) && Waits(s, id, pending) && RowPending(s.db, id) && Other(pending.authorization, hash)
    ensures Appears(env, s, base, hash)
  {
    hide Run, Next, Writable, Appears, RowPending, Waits, Other;
    var t := FreshThread(s.threads.Keys);
    BeginsDecision(env, s, t, id, pending);
    FromDeciding(env, Next(env, s, Decide(t, DoBeginDecide(id))), t, id, pending, base, hash);
    Onward(env, s, Decide(t, DoBeginDecide(id)), base, hash);
  }

  lemma FromApprovalStored(env: Env, s: State, t: nat, id: Id, pending: PendingApproval, base: set<Id>, hash: Bytes)
    requires Ready(s, base) && Was(s, t) == Some(ApprovalStored(id, pending)) && RowPending(s.db, id)
    requires Other(pending.authorization, hash)
    ensures Appears(env, s, base, hash)
  {
    hide Run, Next, Writable, Appears, RowPending, Other;
    Publishes(env, s, t, id, pending);
    FromApproval(env, Next(env, s, Ask(t, DoPublishApproval)), id, pending, base, hash);
    Onward(env, s, Ask(t, DoPublishApproval), base, hash);
  }

  lemma Stores(env: Env, s: State, t: nat, a: Authorization, id: Id, content: Ledger.EventContent)
    requires Was(s, t) == Some(Requesting(a)) && id !in s.db.approvals && Recordable(env, s.log, content)
    ensures var s' := Next(env, s, Ask(t, DoStoreApproval(id, content, true)));
            && Was(s', t) == Some(ApprovalStored(id, PendingFor(a))) && RowPending(s'.db, id)
            && s'.db.capabilities == s.db.capabilities
  {
    hide Next, Ledger.CreateEvent, Ledger.Append, PendingFor;
    AskIs(env, s, t, DoStoreApproval(id, content, true));
  }

  lemma FromRequesting(env: Env, s: State, t: nat, a: Authorization, base: set<Id>, hash: Bytes)
    requires Ready(s, base) && Was(s, t) == Some(Requesting(a)) && Other(a, hash)
    ensures Appears(env, s, base, hash)
  {
    hide Run, Next, Writable, Appears, RowPending, Other;
    var id := FreshId(s.db.approvals.Keys);
    var content := FreshContent(env, s.log);
    var step := Ask(t, DoStoreApproval(id, content, true));
    Stores(env, s, t, a, id, content);
    StaysWritable(env, s, step);
    FromApprovalStored(env, Next(env, s, step), t, id, PendingFor(a), base, hash);
    Onward(env, s, step, base, hash);
  }

  lemma FromAuthorized(env: Env, s: State, t: nat, a: Authorization, base: set<Id>, hash: Bytes)
    requires Ready(s, base) && Was(s, t) == Some(Authorized(a)) && Other(a, hash)
    ensures Appears(env, s, base, hash)
  {
    hide Run, Next, Writable, Appears, Finds, Covering, Other;
    var found := Answer(s.grants, TupleOf(a));
    var step := Ask(t, DoRoute(found, true));
    Routes(env, s, t, a, found, true);
    match RouteTo(s.grants, a, found, true)
    case Minting(_, authority) =>
      FromMinting(env, Next(env, s, step), t, a, authority, base, hash);
      Onward(env, s, step, base, hash);
    case Requesting(_) =>
      FromRequesting(env, Next(env, s, step), t, a, base, hash);
      Onward(env, s, step, base, hash);
    case Granting(_, standing) =>
      FromGranting(env, Next(env, s, step), t, a, standing, base, hash);
      Onward(env, s, step, base, hash);
  }

  // a new request, judged by whatever policy is there

  const HEARD := Session([], [], Ascii("managed"), true, 0)

  /** A session that was heard from and a page that was seen at time zero. */
  predicate Open(s: State, session: Id) {
    Has(s, session, HEARD) && HasPage(s, session, 0) && PageOf(s, session, 0) == NO_PAGE
  }

  const CHOICE := Choice([], [], AuthenticatePassword, [], [], None)

  lemma FromMeasured(
    env: Env, s: State, t: nat, request: Id, binding: Binding, m: Measurement, base: set<Id>, hash: Bytes)
    requires Ready(s, base) && s.policyHash != hash && Was(s, t) == Some(Measured(request, [], binding, m))
    ensures Appears(env, s, base, hash)
  {
    hide Run, Next, Writable, Appears, Policy.RiskOf;
    var step := Ask(t, DoEvaluate(CHOICE, Allowed(false, 0, 0)));
    Evaluates(env, s, t, request, [], binding, m, CHOICE, 0, 0);
    FromAuthorized(env, Next(env, s, step), t, Allowance(s, request, [], binding, m, CHOICE, 0, 0), base, hash);
    Onward(env, s, step, base, hash);
  }

  lemma FromSessionSeen(env: Env, s: State, t: nat, request: Id, session: Id, base: set<Id>, hash: Bytes)
    requires Ready(s, base) && s.policyHash != hash && Open(s, session)
    requires Was(s, t) == Some(SessionSeen(request, [], 0, session, HEARD))
    ensures Appears(env, s, base, hash)
  {
    hide Run, Next, Writable, Appears, Ascii, PageOf, HasPage;
    var step := Ask(t, DoMeasure(0, Origin([])));
    Measures(env, s, t, request, [], 0, session, HEARD, 0, Origin([]));
    FromMeasured(env, Next(env, s, step), t, request, BindingOf(session, [], 0, NO_PAGE),
                 Measurement(HEARD, NO_PAGE, Origin([]), 0), base, hash);
    Onward(env, s, step, base, hash);
  }

  lemma StaysOpen(s: State, s': State, session: Id)
    requires Open(s, session) && s'.sessions == s.sessions && s'.pages == s.pages
    ensures Open(s', session)
  {
  }

  lemma FromScreened(env: Env, s: State, t: nat, request: Id, session: Id, base: set<Id>, hash: Bytes)
    requires Ready(s, base) && s.policyHash != hash && Open(s, session)
    requires Was(s, t) == Some(Screened(request, [], 0))
    ensures Appears(env, s, base, hash)
  {
    hide Run, Next, Writable, Appears, Ascii, PageOf, HasPage;
    var step := Ask(t, DoCheckSession(session));
    Sees(env, s, t, request, [], 0, session, HEARD);
    StaysOpen(s, Next(env, s, step), session);
    FromSessionSeen(env, Next(env, s, step), t, request, session, base, hash);
    Onward(env, s, step, base, hash);
  }

  lemma FromScreening(env: Env, s: State, t: nat, request: Id, session: Id, base: set<Id>, hash: Bytes)
    requires Ready(s, base) && s.policyHash != hash && Open(s, session)
    requires Was(s, t) == Some(Screening(request, [], 0))
    ensures Appears(env, s, base, hash)
  {
    hide Run, Next, Writable, Appears, Open;
    var content := FreshContent(env, s.log);
    var step := Ask(t, DoRecordRequested(content, true));
    Screens(env, s, t, request, [], 0, content);
    StaysWritable(env, s, step);
    StaysOpen(s, Next(env, s, step), session);
    FromScreened(env, Next(env, s, step), t, request, session, base, hash);
    Onward(env, s, step, base, hash);
  }

  lemma FromBound(env: Env, s: State, t: nat, request: Id, session: Id, base: set<Id>, hash: Bytes)
    requires Ready(s, base) && s.policyHash != hash && Open(s, session) && Was(s, t) == Some(Bound(request, []))
    ensures Appears(env, s, base, hash)
  {
    hide Run, Next, Writable, Appears, Open;
    var step := Ask(t, DoMarkRequested(0));
    Marks(env, s, t, request, [], 0);
    StaysOpen(s, Next(env, s, step), session);
    FromScreening(env, Next(env, s, step), t, request, session, base, hash);
    Onward(env, s, step, base, hash);
  }

  lemma FromAdmitted(env: Env, s: State, t: nat, request: Id, session: Id, base: set<Id>, hash: Bytes)
    requires Ready(s, base) && s.policyHash != hash && Open(s, session) && Was(s, t) == Some(Admitted(request, []))
    ensures Appears(env, s, base, hash)
  {
    hide Run, Next, Writable, Appears, Open;
    var step := Ask(t, DoBindAgent);
    Binds(env, s, t, request, []);
    StaysOpen(s, Next(env, s, step), session);
    FromBound(env, Next(env, s, step), t, request, session, base, hash);
    Onward(env, s, step, base, hash);
  }

  lemma FromOpen(env: Env, s: State, session: Id, base: set<Id>, hash: Bytes)
    requires Ready(s, base) && s.policyHash != hash && Open(s, session)
    ensures Appears(env, s, base, hash)
  {
    hide Run, Next, Writable, Appears, Open;
    var t := FreshThread(s.threads.Keys);
    var request := FreshId(s.fingerprints.Keys);
    var step := Ask(t, DoSubmit(request, [], []));
    Submits(env, s, t, request, [], []);
    StaysOpen(s, Next(env, s, step), session);
    FromAdmitted(env, Next(env, s, step), t, request, session, base, hash);
    Onward(env, s, step, base, hash);
  }

  lemma FromRegistered(env: Env, s: State, session: Id, base: set<Id>, hash: Bytes)
    requires Ready(s, base) && s.policyHash != hash && Has(s, session, HEARD)
    ensures Appears(env, s, base, hash)
  {
    hide Run, Next, Writable, Appears, HasPage, PageOf, Ascii;
    var step := World(DoReportPage(session, 0, NO_PAGE));
    Reports(env, s, session, 0, NO_PAGE);
    FromOpen(env, Next(env, s, step), session, base, hash);
    Onward(env, s, step, base, hash);
  }

  /** While another policy is in force, a request that has not even been made
      can be authorised by it. */
  lemma FromPolicy(env: Env, s: State, base: set<Id>, hash: Bytes)
    requires Ready(s, base) && s.policyHash != hash
    ensures Appears(env, s, base, hash)
  {
    hide Run, Next, Writable, Appears, Ascii;
    var session := FreshId(s.sessions.Keys);
    var step := World(DoRegisterSession(session, [], [], 0));
    Registers(env, s, session, [], [], 0);
    FromRegistered(env, Next(env, s, step), session, base, hash);
    Onward(env, s, step, base, hash);
  }

  lemma Replaces(env: Env, s: State, t: nat, hash: Bytes)
    requires Was(s, t) == Some(RowsRevoked(hash))
    ensures Next(env, s, Withdraw(t, DoReplacePolicy))
            == s.(threads := s.threads[t := PolicyReplaced(hash)], policyHash := hash)
  {
    hide Next;
    WithdrawIs(env, s, t, DoReplacePolicy);
  }

  lemma FromRowsRevoked(env: Env, s: State, t: nat, other: Bytes, base: set<Id>, hash: Bytes)
    requires Ready(s, base) && Was(s, t) == Some(RowsRevoked(other)) && other != hash
    ensures Appears(env, s, base, hash)
  {
    hide Run, Next, Writable, Appears;
    Replaces(env, s, t, other);
    FromPolicy(env, Next(env, s, Withdraw(t, DoReplacePolicy)), base, hash);
    Onward(env, s, Withdraw(t, DoReplacePolicy), base, hash);
  }

  lemma FromMinter(env: Env, s: State, t: nat, base: set<Id>, hash: Bytes)
    requires Ready(s, base) && t in s.threads && CanMint(s.db, s.threads[t], hash)
    ensures Appears(env, s, base, hash)
  {
    hide Appears, Ready, RowPending;
    match s.threads[t]
    case Authorized(a) => FromAuthorized(env, s, t, a, base, hash);
    case Granting(a, standing) => FromGranting(env, s, t, a, standing, base, hash);
    case Touched(a, standing) => FromTouched(env, s, t, a, standing, base, hash);
    case Requesting(a) => FromRequesting(env, s, t, a, base, hash);
    case ApprovalStored(id, pending) => FromApprovalStored(env, s, t, id, pending, base, hash);
    case Deciding(id, pending) => FromDeciding(env, s, t, id, pending, base, hash);
    case Judged(id, pending, _, v) => FromJudged(env, s, t, id, pending, v, base, hash);
    case DecisionStored(id, pending, _, v) => FromDecisionStored(env, s, t, id, pending, v, base, hash);
    case Minting(a, authority) => FromMinting(env, s, t, a, authority, base, hash);
  }

  lemma ExposedHasKey(s: State, hash: Bytes)
    requires Grounded(s) && Exposed(s, hash)
    ensures KeyWorks(s.log) && SequencesBelow(s.log)
  {
    hide KeyWorks, SequencesBelow, AgentsKnown, OAuthKnown, BrokerAuthority.AuthorityOk, BrokerBinding.BindingsOk,
         RowPending;
  }

  lemma ExposedAppears(env: Env, s: State, hash: Bytes)
    requires Grounded(s) && Exposed(s, hash)
    ensures Appears(env, s, s.db.capabilities.Keys, hash)
  {
    hide Appears, Grounded, KeyWorks, SequencesBelow, CanMint, RowPending;
    ExposedHasKey(s, hash);
    var base := s.db.capabilities.Keys;
    if s.policyHash != hash {
      FromPolicy(env, s, base, hash);
    } else if t :| t in s.threads && s.threads[t].RowsRevoked? && s.threads[t].hash != hash {
      FromRowsRevoked(env, s, t, s.threads[t].hash, base, hash);
    } else if t :| t in s.threads && CanMint(s.db, s.threads[t], hash) {
      FromMinter(env, s, t, base, hash);
    } else {
      var id :| id in s.approvals && s.approvals[id].authorization.subject.policyHash != hash && RowPending(s.db, id);
      FromApproval(env, s, id, s.approvals[id], base, hash);
    }
  }

  // -------------------------------------------------- not exposed: it does not

  /** Every row that was not there before is of policy `hash`. */
  ghost predicate Clean(db: Store.Tables, base: set<Id>, hash: Bytes) {
    forall id <- db.capabilities :: id in base || db.capabilities[id].policyHash == hash
  }

  ghost predicate PolicyInPlace(s: State, hash: Bytes) {
    s.policyHash == hash || !KeyWorks(s.log)
  }

  ghost predicate NoSwap(s: State, hash: Bytes) {
    forall t <- s.threads :: s.threads[t].RowsRevoked? ==> s.threads[t].hash == hash
  }

  ghost predicate NoMinter(s: State, hash: Bytes) {
    forall t <- s.threads :: !CanMint(s.db, s.threads[t], hash)
  }

  ghost predicate NoneWaiting(s: State, hash: Bytes) {
    forall id <- s.approvals :: RowPending(s.db, id) ==> s.approvals[id].authorization.subject.policyHash == hash
  }

  ghost predicate Contained(s: State, hash: Bytes) {
    PolicyInPlace(s, hash) && NoSwap(s, hash) && NoMinter(s, hash) && NoneWaiting(s, hash)
  }

  lemma ContainedUnlessExposed(s: State, hash: Bytes)
    requires !Exposed(s, hash)
    ensures Contained(s, hash)
  {
    hide CanMint, RowPending, KeyWorks;
  }

  // the policy in force

  lemma OnlyReplaceSwaps(step: Step)
    requires PolicyHash in Written(step) && !IsRestart(step)
    ensures step.Withdraw? && step.withdraw.DoReplacePolicy?
  {
  }

  lemma PolicyStays(env: Env, s: State, step: Step, hash: Bytes)
    requires PolicyInPlace(s, hash) && NoSwap(s, hash) && SequencesBelow(s.log) && !IsRestart(step)
    ensures PolicyInPlace(Next(env, s, step), hash)
  {
    hide Next, SequencesBelow, Written;
    BelowStep(env, s, step);
    if PolicyHash in Written(step) {
      OnlyReplaceSwaps(step);
      ReplaceStays(env, s, step.t, hash);
    } else {
      StepFrame(env, s, step);
    }
  }

  lemma ReplaceStays(env: Env, s: State, t: nat, hash: Bytes)
    requires NoSwap(s, hash)
    ensures var s' := Next(env, s, Withdraw(t, DoReplacePolicy)); s'.policyHash == s.policyHash || s'.policyHash == hash
  {
    hide Next;
    WithdrawIs(env, s, t, DoReplacePolicy);
  }

  // threads

  lemma SwapFrom(s: State, step: Step, t: nat, q: Point)
    requires Leads(s, step, Was(s, t), q) && q.RowsRevoked?
    ensures IsReload(step)
  {
  }

  lemma NoNewSwap(env: Env, s: State, step: Step, hash: Bytes)
    requires NoSwap(s, hash) && !IsRestart(step) && !IsReload(step)
    ensures NoSwap(Next(env, s, step), hash)
  {
    hide Next, Leads, IsReload, Actor;
    var s' := Next(env, s, step);
    StepMoves(env, s, step);
    forall t <- s'.threads | s'.threads[t].RowsRevoked?
      ensures s'.threads[t].hash == hash
    {
      if t !in s.threads || s'.threads[t] != s.threads[t] {
        SwapFrom(s, step, t, s'.threads[t]);
      }
    }
  }

  /** The approval a thread speaks of has its row. */
  lemma CopyHasRow(s: State, t: nat)
    requires BrokerAuthority.AuthorityOk(s) && t in s.threads
    ensures match s.threads[t]
            case ApprovalStored(id, _) => id in s.db.approvals
            case Deciding(id, _) => id in s.db.approvals
            case Judged(id, _, _, _) => id in s.db.approvals
            case _ => true
  {
    hide BrokerAuthority.AuthorityOk;
    CopyIsBacked(s, t);
  }

  lemma MintsAsBefore(s: State, s': State, t: nat, hash: Bytes)
    requires BrokerAuthority.AuthorityOk(s) && NothingReopens(s.db, s'.db) && t in s.threads
    requires CanMint(s'.db, s.threads[t], hash)
    ensures CanMint(s.db, s.threads[t], hash)
  {
    hide BrokerAuthority.AuthorityOk, RowPending;
    CopyHasRow(s, t);
  }

  lemma JudgedFrom(s: State, s': State, step: Step, t: nat, q: Point, hash: Bytes)
    requires BrokerAuthority.AuthorityOk(s) && NothingReopens(s.db, s'.db)
    requires Leads(s, step, Was(s, t), q) && q.Judged? && CanMint(s'.db, q, hash)
    ensures t in s.threads && CanMint(s.db, s.threads[t], hash)
  {
    hide BrokerAuthority.AuthorityOk, RowPending, Convincing;
    if t in s.threads {
      CopyHasRow(s, t);
    }
  }

  lemma DecidingFrom(s: State, s': State, step: Step, t: nat, q: Point, hash: Bytes)
    requires BrokerAuthority.AuthorityOk(s) && NothingReopens(s.db, s'.db) && NoneWaiting(s, hash)
    requires Leads(s, step, Was(s, t), q) && q.Deciding?
    ensures !CanMint(s'.db, q, hash)
  {
    hide BrokerAuthority.AuthorityOk, RowPending;
    ApprovalsBacked(s);
  }

  lemma DecisionFrom(env: Env, s: State, s': State, step: Step, t: nat, q: Point, hash: Bytes)
    requires Actor(step) == Some(t) && s' == Next(env, s, step) && t in s'.threads && s'.threads[t] == q
    requires Leads(s, step, Was(s, t), q) && q.DecisionStored? && CanMint(s'.db, q, hash)
    ensures t in s.threads && CanMint(s.db, s.threads[t], hash)
  {
    hide StoreDecision, RowPending, Leads;
    DecidedFrom(s, step, t, q);
    DecidedWasPending(env, s, t, step.decide.content, step.decide.stored);
  }

  lemma AuthorizedFrom(s: State, step: Step, t: nat, q: Point, hash: Bytes)
    requires PolicyInPlace(s, hash) && (!KeyWorks(s.log) ==> Bare(s))
    requires Leads(s, step, Was(s, t), q) && q.Authorized?
    ensures q.authorization.subject.policyHash == hash
  {
    hide KeyWorks;
    if t in s.threads {
      assert Vouched(s.threads[t]);
    }
  }

  lemma StoredFrom(s: State, s': State, step: Step, t: nat, q: Point, hash: Bytes)
    requires Leads(s, step, Was(s, t), q) && CanMint(s'.db, q, hash)
    requires q.Granting? || q.Touched? || q.Requesting? || q.ApprovalStored? || q.Minting?
    ensures t in s.threads && CanMint(s.db, s.threads[t], hash)
  {
    hide RowPending, Covering;
  }

  lemma MoverCannotMint(env: Env, s: State, s': State, step: Step, t: nat, q: Point, hash: Bytes)
    requires Grounded(s) && Contained(s, hash) && NothingReopens(s.db, s'.db)
    requires Actor(step) == Some(t) && s' == Next(env, s, step) && t in s'.threads && s'.threads[t] == q
    requires Leads(s, step, Was(s, t), q)
    ensures !CanMint(s'.db, q, hash)
  {
    hide Next, Leads, NothingReopens, Actor, RowPending, AgentsKnown, OAuthKnown, SequencesBelow, KeyWorks, Bare,
         BrokerAuthority.AuthorityOk, BrokerBinding.BindingsOk, NoneWaiting, NoSwap, Store.Sound, Store.LiveUnused;
    if CanMint(s'.db, q, hash) {
      if q.Deciding? {
        DecidingFrom(s, s', step, t, q, hash);
      } else if q.Judged? {
        JudgedFrom(s, s', step, t, q, hash);
      } else if q.DecisionStored? {
        DecisionFrom(env, s, s', step, t, q, hash);
      } else if q.Authorized? {
        AuthorizedFrom(s, step, t, q, hash);
      } else {
        StoredFrom(s, s', step, t, q, hash);
      }
    }
  }

  lemma NoNewMinter(env: Env, s: State, step: Step, hash: Bytes)
    requires Grounded(s) && Contained(s, hash) && !IsRestart(step)
    ensures NoMinter(Next(env, s, step), hash)
  {
    hide Next, Leads, CanMint, Grounded, NothingReopens, PolicyInPlace, NoSwap, NoneWaiting,
         BrokerAuthority.AuthorityOk, BrokerBinding.BindingsOk;
    var s' := Next(env, s, step);
    StepMoves(env, s, step);
    GroundedAuthority(s);
    StepReopensNothing(env, s, step);
    forall t <- s'.threads
      ensures !CanMint(s'.db, s'.threads[t], hash)
    {
      if t in s.threads && s'.threads[t] == s.threads[t] {
        if CanMint(s'.db, s.threads[t], hash) {
          MintsAsBefore(s, s', t, hash);
        }
      } else {
        MoverCannotMint(env, s, s', step, t, s'.threads[t], hash);
      }
    }
  }

  // approvals

  predicate ApprovalsIdle(step: Step) {
    match step
    case Ask(_, DoPublishApproval) => false
    case Decide(_, DoDropApproval) => false
    case World(DoRestart(_, _, _)) => false
    case _ => true
  }

  lemma ApprovalsIdleWrites(step: Step)
    requires ApprovalsIdle(step)
    ensures !IsRestart(step) && Approvals !in Written(step)
  {
  }

  lemma PublishedIsPlain(s: State, t: nat, hash: Bytes)
    requires NoneWaiting(s, hash) && NoMinter(s, hash)
    ensures NoneWaiting(PublishApproval(s, t), hash)
  {
    hide RowPending;
    assert t in s.threads ==> !CanMint(s.db, s.threads[t], hash);
  }

  lemma DroppedIsPlain(s: State, t: nat, hash: Bytes)
    requires NoneWaiting(s, hash)
    ensures NoneWaiting(DropApproval(s, t), hash)
  {
    hide RowPending;
  }

  lemma IdleWaits(env: Env, s: State, step: Step, hash: Bytes)
    requires NoneWaiting(s, hash) && BrokerAuthority.AuthorityOk(s) && ApprovalsIdle(step)
    ensures NoneWaiting(Next(env, s, step), hash)
  {
    hide Next, ApprovalsIdle, Written, BrokerAuthority.AuthorityOk, RowPending;
    ApprovalsIdleWrites(step);
    StepFrame(env, s, step);
    ApprovalsBacked(s);
    StepReopensNothing(env, s, step);
  }

  lemma NoneWaits(env: Env, s: State, step: Step, hash: Bytes)
    requires NoneWaiting(s, hash) && NoMinter(s, hash) && BrokerAuthority.AuthorityOk(s) && !IsRestart(step)
    ensures NoneWaiting(Next(env, s, step), hash)
  {
    hide NoneWaiting, NoMinter, BrokerAuthority.AuthorityOk, PublishApproval, DropApproval;
    match step
    case Ask(t, DoPublishApproval) => PublishedIsPlain(s, t, hash);
    case Decide(t, DoDropApproval) => DroppedIsPlain(s, t, hash);
    case _ => IdleWaits(env, s, step, hash);
  }

  // rows

  predicate MintsRow(step: Step) {
    step.Issue? && step.issue.DoMintRow?
  }

  lemma OnlyMintAdds(step: Step)
    requires RowSet in Written(step)
    ensures MintsRow(step)
  {
  }

  lemma MintedIsClean(env: Env, s: State, t: nat, step: IssueStep, base: set<Id>, hash: Bytes)
    requires step.DoMintRow? && Clean(s.db, base, hash) && NoMinter(s, hash)
    ensures Clean(Next(env, s, Issue(t, step)).db, base, hash)
  {
    hide Next, RowPending, Transact, NewCapability;
    IssueIs(env, s, t, step);
    assert t in s.threads ==> !CanMint(s.db, s.threads[t], hash);
  }

  lemma StaysClean(env: Env, s: State, step: Step, base: set<Id>, hash: Bytes)
    requires Clean(s.db, base, hash) && NoMinter(s, hash) && !IsRestart(step)
    ensures Clean(Next(env, s, step).db, base, hash)
  {
    hide Next, Written, NoMinter, Clean;
    if RowSet in Written(step) {
      OnlyMintAdds(step);
      MintedIsClean(env, s, step.t, step.issue, base, hash);
    } else {
      StepFrame(env, s, step);
      AlikeIsClean(s.db, Next(env, s, step).db, base, hash);
    }
  }

  lemma AlikeIsClean(db: Store.Tables, db': Store.Tables, base: set<Id>, hash: Bytes)
    requires Clean(db, base, hash) && RowsAlike(db.capabilities, db'.capabilities)
    ensures Clean(db', base, hash)
  {
  }

  lemma ContainedStep(env: Env, s: State, step: Step, base: set<Id>, hash: Bytes)
    requires Grounded(s) && Contained(s, hash) && Clean(s.db, base, hash) && !IsRestart(step) && !IsReload(step)
    ensures Contained(Next(env, s, step), hash) && Clean(Next(env, s, step).db, base, hash)
  {
    hide Next, AgentsKnown, OAuthKnown, SequencesBelow, KeyWorks, Bare, BrokerAuthority.AuthorityOk,
         BrokerBinding.BindingsOk, Store.Sound, Store.LiveUnused, PolicyInPlace, NoSwap, NoMinter, NoneWaiting, Clean,
         IsReload;
    PolicyStays(env, s, step, hash);
    NoNewSwap(env, s, step, hash);
    NoNewMinter(env, s, step, hash);
    NoneWaits(env, s, step, hash);
    StaysClean(env, s, step, base, hash);
  }

  lemma {:induction false} ContainedRun(env: Env, s: State, steps: seq<Step>, base: set<Id>, hash: Bytes)
    requires Grounded(s) && Contained(s, hash) && Clean(s.db, base, hash) && Undisturbed(steps)
    ensures Clean(Run(env, s, steps).db, base, hash)
    decreases |steps|
  {
    hide Next, Grounded, Contained, Clean;
    if steps != [] {
      ContainedStep(env, s, steps[0], base, hash);
      GroundedStep(env, s, steps[0]);
      ContainedRun(env, Next(env, s, steps[0]), steps[1..], base, hash);
    }
  }

  // ----------------------------------------------------------------- theorems

  /** In every reachable state and for every policy: until the next restart or
      reload, a new live row of another policy can appear if and only if that
      policy is in force or about to be, or a request it judged is still on its
      way. */
  lemma StaleRowIff(env: Env, signer: Ledger.Signer, policyHash: Bytes, past: seq<Step>, hash: Bytes)
    ensures var s := Run(env, Initial(signer, policyHash), past);
            Appears(env, s, s.db.capabilities.Keys, hash) <==> Exposed(s, hash)
  {
    hide Run, Grounded, Exposed, Contained, Initial, StaleRow, Clean;
    var s := Run(env, Initial(signer, policyHash), past);
    var base := s.db.capabilities.Keys;
    ReachedIsGrounded(env, signer, policyHash, past);
    if Exposed(s, hash) {
      ExposedAppears(env, s, hash);
    } else {
      ContainedUnlessExposed(s, hash);
      StartsClean(s.db, hash);
      forall steps: seq<Step> | Undisturbed(steps)
        ensures !StaleRow(Run(env, s, steps).db, base, hash)
      {
        ContainedRun(env, s, steps, base, hash);
        CleanHasNoStale(Run(env, s, steps).db, base, hash);
      }
    }
  }

  /** The rows of other policies there are. */
  function OthersIn(db: Store.Tables, hash: Bytes): set<Id> {
    set id | id in db.capabilities && db.capabilities[id].policyHash != hash
  }

  lemma StartsClean(db: Store.Tables, hash: Bytes)
    ensures Clean(db, db.capabilities.Keys, hash) && Clean(db, OthersIn(db, hash), hash)
  {
  }

  lemma CleanHasNoStale(db: Store.Tables, base: set<Id>, hash: Bytes)
    requires Clean(db, base, hash)
    ensures !StaleRow(db, base, hash)
  {
  }

  /** No row of another policy is live. */
  ghost predicate OnlyLive(db: Store.Tables, hash: Bytes) {
    forall id <- db.capabilities :: db.capabilities[id].IsLive() ==> db.capabilities[id].policyHash == hash
  }

  /** No execution was added but for a capability of policy `hash`. */
  ghost predicate OnlyConsumed(db: Store.Tables, after: Store.Tables, hash: Bytes) {
    forall e <- after.executions ::
      e in db.executions
      || (after.executions[e].capability in after.capabilities
          && after.capabilities[after.executions[e].capability].policyHash == hash)
  }

  /** What a reload to `hash` is for: until the next one, nothing of another
      policy is live and nothing of another policy is consumed. */
  ghost predicate KeepsOthersOut(env: Env, s: State, hash: Bytes) {
    forall steps: seq<Step> ::
      Undisturbed(steps) ==>
        OnlyLive(Run(env, s, steps).db, hash) && OnlyConsumed(s.db, Run(env, s, steps).db, hash)
  }

  lemma OthersStayOut(env: Env, s: State, steps: seq<Step>, hash: Bytes)
    requires Grounded(s) && Contained(s, hash) && OnlyLive(s.db, hash) && Undisturbed(steps)
    ensures OnlyLive(Run(env, s, steps).db, hash) && OnlyConsumed(s.db, Run(env, s, steps).db, hash)
  {
    hide Run, Grounded, Contained, Clean;
    var others := OthersIn(s.db, hash);
    var after := Run(env, s, steps).db;
    StartsClean(s.db, hash);
    ContainedRun(env, s, steps, others, hash);
    GroundedStore(s);
    BrokerDurable.RunIsSound(env, s, steps);
    forall id <- others
      ensures BrokerDurable.Untouched(s.db, after, id) && !s.db.capabilities[id].IsLive()
    {
      BrokerDurable.EndedStaysEnded(env, s, steps, id);
    }
    OnlyTheirsIsLeft(s.db, after, hash);
  }

  lemma GroundedStore(s: State)
    requires Grounded(s)
    ensures Store.Sound(s.db)
  {
  }

  lemma OnlyTheirsIsLeft(db: Store.Tables, after: Store.Tables, hash: Bytes)
    requires Clean(after, OthersIn(db, hash), hash) && Store.Sound(after)
    requires forall id <- OthersIn(db, hash) ::
               BrokerDurable.Untouched(db, after, id) && !db.capabilities[id].IsLive()
    ensures OnlyLive(after, hash) && OnlyConsumed(db, after, hash)
  {
  }

  lemma StaleRowIsLive(db: Store.Tables, base: set<Id>, hash: Bytes)
    requires StaleRow(db, base, hash)
    ensures !OnlyLive(db, hash)
  {
  }

  lemma AppearsBreaks(env: Env, s: State, base: set<Id>, hash: Bytes)
    requires Appears(env, s, base, hash)
    ensures !KeepsOthersOut(env, s, hash)
  {
    hide Run, StaleRow, OnlyLive, OnlyConsumed;
    var steps: seq<Step> :| Undisturbed(steps) && StaleRow(Run(env, s, steps).db, base, hash);
    StaleRowIsLive(Run(env, s, steps).db, base, hash);
  }

  lemma LiveBreaks(env: Env, s: State, hash: Bytes)
    requires !OnlyLive(s.db, hash)
    ensures !KeepsOthersOut(env, s, hash)
  {
    hide OnlyLive, OnlyConsumed, Next;
    assert Undisturbed([]) && Run(env, s, []) == s;
  }

  lemma GroundedKeepsOutIff(env: Env, s: State, hash: Bytes)
    requires Grounded(s)
    ensures KeepsOthersOut(env, s, hash) <==> OnlyLive(s.db, hash) && !Exposed(s, hash)
  {
    hide Run, Grounded, Exposed, Contained, OnlyLive, OnlyConsumed, Appears;
    if Exposed(s, hash) {
      ExposedAppears(env, s, hash);
      AppearsBreaks(env, s, s.db.capabilities.Keys, hash);
    } else if !OnlyLive(s.db, hash) {
      LiveBreaks(env, s, hash);
    } else {
      ContainedUnlessExposed(s, hash);
      forall steps: seq<Step> | Undisturbed(steps)
        ensures OnlyLive(Run(env, s, steps).db, hash) && OnlyConsumed(s.db, Run(env, s, steps).db, hash)
      {
        OthersStayOut(env, s, steps, hash);
      }
    }
  }

  /** In every reachable state, before, in or after a reload: other policies are
      out for good if and only if no live row is of one and none is exposed. */
  lemma KeepsOutIff(env: Env, signer: Ledger.Signer, policyHash: Bytes, past: seq<Step>, hash: Bytes)
    ensures var s := Run(env, Initial(signer, policyHash), past);
            KeepsOthersOut(env, s, hash) <==> OnlyLive(s.db, hash) && !Exposed(s, hash)
  {
    hide Run, Grounded, Exposed, Initial, OnlyLive, KeepsOthersOut;
    ReachedIsGrounded(env, signer, policyHash, past);
    GroundedKeepsOutIff(env, Run(env, Initial(signer, policyHash), past), hash);
  }

  /** The rows are swept; `Exposed` is as it was before. */
  lemma Sweeps(env: Env, s: State, t: nat, hash: Bytes, content: Ledger.EventContent, stored: bool)
    requires t !in s.threads && t in ReloadRows(env, s, t, hash, content, stored).threads
    ensures var s' := ReloadRows(env, s, t, hash, content, stored);
            && OnlyLive(s'.db, hash) && s'.db.approvals == s.db.approvals
            && s'.threads == s.threads[t := RowsRevoked(hash)] && KeyWorks(s.log)
  {
    hide Ledger.Append, KeyWorks;
    AppendNeedsKey(env.crypto, s.log, content, stored);
  }

  lemma SweepExposesNothing(env: Env, s: State, t: nat, hash: Bytes, content: Ledger.EventContent, stored: bool)
    requires t !in s.threads && t in ReloadRows(env, s, t, hash, content, stored).threads && SequencesBelow(s.log)
    ensures Exposed(ReloadRows(env, s, t, hash, content, stored), hash) <==> Exposed(s, hash)
  {
    hide ReloadRows, SequencesBelow, KeyWorks, CanMint, RowPending;
    var s' := ReloadRows(env, s, t, hash, content, stored);
    Sweeps(env, s, t, hash, content, stored);
    BelowReload(env, s, t, hash, content, stored);
    NoneBySweeping(s, s', t, hash);
  }

  lemma BelowReload(env: Env, s: State, t: nat, hash: Bytes, content: Ledger.EventContent, stored: bool)
    requires SequencesBelow(s.log)
    ensures KeyWorks(ReloadRows(env, s, t, hash, content, stored).log) == KeyWorks(s.log)
  {
    hide ReloadRows, SequencesBelow;
    BelowStep(env, s, Withdraw(t, DoReloadRows(hash, content, stored)));
  }

  lemma NoneBySweeping(s: State, s': State, t: nat, hash: Bytes)
    requires t !in s.threads && s'.threads == s.threads[t := RowsRevoked(hash)]
    requires s'.db.approvals == s.db.approvals && s'.approvals == s.approvals && s'.policyHash == s.policyHash
    requires KeyWorks(s'.log) == KeyWorks(s.log)
    ensures Exposed(s', hash) <==> Exposed(s, hash)
  {
    hide KeyWorks, CanMint, RowPending;
    forall u <- s.threads
      ensures CanMint(s'.db, s'.threads[u], hash) <==> CanMint(s.db, s.threads[u], hash)
    {
      MintsAlike(s.db, s'.db, s.threads[u], hash);
    }
    forall id <- s.approvals
      ensures RowPending(s'.db, id) <==> RowPending(s.db, id)
    {
      PendingAlike(s.db, s'.db, id);
    }
    assert !CanMint(s'.db, s'.threads[t], hash) by {
      SweeperCannotMint(s'.db, hash);
    }
  }

  lemma SweeperCannotMint(db: Store.Tables, hash: Bytes)
    ensures !CanMint(db, RowsRevoked(hash), hash)
  {
  }

  lemma MintsAlike(db: Store.Tables, db': Store.Tables, p: Point, hash: Bytes)
    requires db'.approvals == db.approvals
    ensures CanMint(db', p, hash) <==> CanMint(db, p, hash)
  {
  }

  lemma PendingAlike(db: Store.Tables, db': Store.Tables, id: Id)
    requires db'.approvals == db.approvals
    ensures RowPending(db', id) <==> RowPending(db, id)
  {
  }

  lemma ReloadIsGrounded(env: Env, s: State, t: nat, hash: Bytes, content: Ledger.EventContent, stored: bool)
    requires Grounded(s)
    ensures Grounded(ReloadRows(env, s, t, hash, content, stored)) && SequencesBelow(s.log)
  {
    hide Grounded, ReloadRows;
    GroundedStep(env, s, Withdraw(t, DoReloadRows(hash, content, stored)));
    GroundedSequences(s);
  }

  lemma GroundedSequences(s: State)
    requires Grounded(s)
    ensures SequencesBelow(s.log)
  {
  }

  /** At the commit of a reload to `hash` in any reachable state: it keeps other
      policies out until the next one if and only if, at the commit, no other
      policy is in force or about to be and no request it judged is on its way. */
  lemma ReloadKeepsOutIff(
    env: Env, signer: Ledger.Signer, policyHash: Bytes, past: seq<Step>, t: nat, hash: Bytes,
    content: Ledger.EventContent, stored: bool)
    requires var s := Run(env, Initial(signer, policyHash), past);
             t !in s.threads && t in ReloadRows(env, s, t, hash, content, stored).threads
    ensures var s := Run(env, Initial(signer, policyHash), past);
            KeepsOthersOut(env, ReloadRows(env, s, t, hash, content, stored), hash) <==> !Exposed(s, hash)
  {
    hide Run, Grounded, Exposed, Initial, OnlyLive, KeepsOthersOut, ReloadRows, SequencesBelow, KeyWorks;
    var s := Run(env, Initial(signer, policyHash), past);
    ReachedIsGrounded(env, signer, policyHash, past);
    ReloadIsGrounded(env, s, t, hash, content, stored);
    GroundedKeepsOutIff(env, ReloadRows(env, s, t, hash, content, stored), hash);
    Sweeps(env, s, t, hash, content, stored);
    SweepExposesNothing(env, s, t, hash, content, stored);
  }

  /** So a reload that changes the policy always leaves a gap: until the policy
      is replaced, requests are authorised by the old one. */
  lemma GapIsOpen(
    env: Env, signer: Ledger.Signer, policyHash: Bytes, past: seq<Step>, t: nat, hash: Bytes,
    content: Ledger.EventContent, stored: bool)
    requires var s := Run(env, Initial(signer, policyHash), past);
             t !in s.threads && t in ReloadRows(env, s, t, hash, content, stored).threads && s.policyHash != hash
    ensures var s := Run(env, Initial(signer, policyHash), past);
            !KeepsOthersOut(env, ReloadRows(env, s, t, hash, content, stored), hash)
  {
    hide Run, Initial, OnlyLive, KeepsOthersOut, ReloadRows, KeyWorks, Straggler;
    var s := Run(env, Initial(signer, policyHash), past);
    Sweeps(env, s, t, hash, content, stored);
    ReloadKeepsOutIff(env, signer, policyHash, past, t, hash, content, stored);
  }
}
