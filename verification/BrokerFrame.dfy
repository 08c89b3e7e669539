/** What a step may touch, once for all results: the parts of the state it may
    write, the thread it may move, and where that thread may go. An invariant is
    kept by every step that writes none of the parts it speaks of, as long as
    the thread that moves carries on what it held. */
module BrokerFrame {
  import opened ByteStrings
  import opened Wrappers
  import opened Domain
  import opened Broker
  import Grants
  import Ledger
  import Store

  /** The evidence that lets a decision be an approval. */
  predicate Convincing(pending: PendingApproval, v: Verdict) {
    && v.echoed == pending.digest
    && v.at < pending.expiresAt && v.requestedAt == pending.requestedAt
    && StillCurrent(pending.authorization.binding, v.seen, v.at)
    && (pending.authorization.presence ==> v.presenceVerified)
  }

  /** The verifier accepted a copy of this entry, in this context and now. */
  predicate Cleared(entry: Capability, use: Use) {
    var copy := use.capability;
    && entry.IsLive() && entry.usedCount < entry.terms.maxUses
    && copy == entry.(state := copy.state, usedCount := entry.usedCount + 1)
    && copy.state == (if copy.usedCount >= copy.terms.maxUses then Consumed else Active)
    && use.context == entry.terms.binding
    && Seconds(entry.terms.issuedAt) - 1 <= Seconds(use.now) && use.now < entry.terms.consumeDeadline
    && CodesReady(entry.terms.subject.action, use.generator)
  }

  predicate HeldAt(holder: map<Id, Place>, id: Id, place: Place) {
    id in holder && holder[id] == place
  }

  // ------------------------------------------------------------------ parts

  /** `RowSet`, `RunSet` and `EntrySet` are which capability rows, executions
      and entries there are and what they were made with; the states and use
      counts they have are parts of their own. */
  datatype Part =
    | RowSet | RowStates | RunSet | RunStates | ApprovalRows | TotpRows | Trail | GrantRows
    | PolicyHash | Sessions | Pages | Fingerprints | Agents | Requests | Approvals
    | EntrySet | EntryStates | Generators | Offers | OAuth | Executions
    | Measurements | Mints | Consumptions | OfferPlaces | Offered | ReleasePlaces | Released | Codes
    | Holders | ApprovalIds

  function AskWrites(step: AskStep): set<Part> {
    match step
    case DoSubmit(_, _, _) => {Fingerprints, Holders}
    case DoBindAgent => {Agents}
    case DoMarkRequested(_) => {Requests}
    case DoRecordRequested(_, _) => {Trail}
    case DoMeasure(_, _) => {Measurements}
    case DoTouchGrant(_) => {GrantRows}
    case DoRecordGrantUse(_, _) => {Trail}
    case DoStoreApproval(_, _, _) => {ApprovalRows, Trail, Holders, ApprovalIds}
    case DoPublishApproval => {Approvals}
    case DoReport => {Requests}
    case _ => {}
  }

  function DecideWrites(step: DecideStep): set<Part> {
    match step
    case DoStoreDecision(_, _) => {ApprovalRows, Trail, Holders}
    case DoDropApproval => {Approvals}
    case _ => {}
  }

  function IssueWrites(step: IssueStep): set<Part> {
    match step
    case DoMintRow(_, _, _, _) => {RowSet, RowStates, Trail, Holders, OfferPlaces, Mints}
    case DoPublishCapability => {EntrySet, EntryStates, Generators}
    case DoQueueOffer => {Offers, OfferPlaces}
  }

  function PollWrites(step: PollStep): set<Part> {
    match step
    case DoPopOffer => {Offers, OfferPlaces}
    case DoInspectOffer(_, _) => {OAuth, OfferPlaces, Offered}
    case _ => {}
  }

  function ConsumeWrites(step: ConsumeStep): set<Part> {
    match step
    case DoConsumeRow(_, _, _) => {RowStates, RunSet, RunStates, TotpRows, Trail, Consumptions, ReleasePlaces}
    case DoWriteBack => {EntrySet, EntryStates}
    case DoTrackExecution => {Executions}
    case DoRelease(_, _, _) => {Trail, Released, ReleasePlaces, Codes}
    case _ => {}
  }

  function FinishWrites(step: FinishStep): set<Part> {
    match step
    case DoFinishRow(_, _) => {RunStates, Trail}
    case DoWriteExecution => {Executions}
    case _ => {}
  }

  function WithdrawWrites(step: WithdrawStep): set<Part> {
    match step
    case DoCancel(_, _) => {Requests, EntryStates}
    case DoSweepSessions(_) => {Sessions}
    case DoCloseBrowser(_) => {Sessions}
    case DoRevokeSessionEntries => {EntryStates}
    case DoRevokePolicyEntries => {EntryStates}
    case DoRevokeEntry => {EntryStates}
    case DoDisableAgent(_) => {EntryStates}
    case DoReloadRows(_, _, _) => {RowStates, Trail}
    case DoRevokeRow(_, _, _) => {RowStates, Trail}
    case DoReplacePolicy => {PolicyHash}
    case DoRevokeGrants(_, _) => {GrantRows}
    case _ => {}
  }

  function CallbackWrites(step: CallbackStep): set<Part> {
    match step
    case DoTakeOAuth(_, _) => {OAuth}
    case DoSpendOAuthRow(_) => {RowStates}
    case DoSpendOAuthEntry(_) => {EntryStates}
    case _ => {}
  }

  function WorldWrites(step: WorldStep): set<Part> {
    match step
    case DoReportPage(_, _, _) => {Pages}
    case DoRecordOther(_, _) => {Trail}
    case DoWriteCheckpoint(_, _) => {Trail}
    case DoInsertGrant(_, _, _, _) => {Trail, GrantRows}
    case _ => {Sessions}
  }

  /** The parts a step may write. A restart is not among these steps: it writes
      everything. */
  function Written(step: Step): set<Part> {
    match step
    case Ask(_, ask) => AskWrites(ask)
    case Decide(_, decide) => DecideWrites(decide)
    case Issue(_, issue) => IssueWrites(issue)
    case Poll(_, poll) => PollWrites(poll)
    case Consume(_, consume) => ConsumeWrites(consume)
    case Finish(_, finish) => FinishWrites(finish)
    case Withdraw(_, withdraw) => WithdrawWrites(withdraw)
    case Callback(_, callback) => CallbackWrites(callback)
    case World(world) => WorldWrites(world)
  }

  predicate IsRestart(step: Step) {
    step.World? && step.world.DoRestart?
  }

  /** No row is added, and rows keep what they were inserted with. */
  ghost predicate RowsAlike(rows: map<Id, Store.CapabilityRow>, rows': map<Id, Store.CapabilityRow>) {
    && rows'.Keys == rows.Keys
    && forall id <- rows :: rows'[id] == rows[id].(state := rows'[id].state, usedCount := rows'[id].usedCount)
  }

  ghost predicate RunsAlike(runs: map<Id, Store.ExecutionRow>, runs': map<Id, Store.ExecutionRow>) {
    && runs'.Keys == runs.Keys
    && forall e <- runs :: runs'[e] == runs[e].(state := runs'[e].state)
  }

  ghost predicate EntriesAlike(entries: map<Id, Capability>, entries': map<Id, Capability>) {
    && entries'.Keys == entries.Keys
    && forall id <- entries :: entries'[id].terms == entries[id].terms
  }

  ghost predicate DbFrame(db: Store.Tables, db': Store.Tables, w: set<Part>) {
    && (RowSet !in w ==> RowsAlike(db.capabilities, db'.capabilities))
    && (RowStates !in w ==> db'.capabilities == db.capabilities)
    && (RunSet !in w ==> RunsAlike(db.executions, db'.executions))
    && (RunStates !in w ==> db'.executions == db.executions)
    && (ApprovalRows !in w ==> db'.approvals == db.approvals)
    && (TotpRows !in w ==> db'.totp == db.totp)
  }

  ghost predicate HistoryFrame(h: History, h': History, w: set<Part>) {
    && (Measurements !in w ==> h'.measured == h.measured)
    && (Mints !in w ==> h'.mints == h.mints)
    && (Consumptions !in w ==> h'.consumed == h.consumed)
    && (OfferPlaces !in w ==> h'.offerAt == h.offerAt)
    && (Offered !in w ==> h'.offered == h.offered)
    && (ReleasePlaces !in w ==> h'.releaseAt == h.releaseAt)
    && (Released !in w ==> h'.released == h.released)
    && (Codes !in w ==> h'.codes == h.codes)
    && (Holders !in w ==> h'.holder == h.holder)
    && (ApprovalIds !in w ==> h'.approvalOf == h.approvalOf)
  }

  /** Nothing but the parts in `w`, and the threads, may differ. */
  ghost predicate Frame(s: State, s': State, w: set<Part>) {
    && s'.boot == s.boot
    && DbFrame(s.db, s'.db, w)
    && HistoryFrame(s.history, s'.history, w)
    && (Trail !in w ==> s'.log == s.log)
    && (GrantRows !in w ==> s'.grants == s.grants)
    && (PolicyHash !in w ==> s'.policyHash == s.policyHash)
    && (Sessions !in w ==> s'.sessions == s.sessions)
    && (Pages !in w ==> s'.pages == s.pages)
    && (Fingerprints !in w ==> s'.fingerprints == s.fingerprints)
    && (Agents !in w ==> s'.requestAgents == s.requestAgents)
    && (Requests !in w ==> s'.requests == s.requests)
    && (Approvals !in w ==> s'.approvals == s.approvals)
    && (EntrySet !in w ==> EntriesAlike(s.capabilities, s'.capabilities))
    && (EntryStates !in w ==> s'.capabilities == s.capabilities)
    && (Generators !in w ==> s'.generators == s.generators)
    && (Offers !in w ==> s'.offers == s.offers)
    && (OAuth !in w ==> s'.oauth == s.oauth)
    && (Executions !in w ==> s'.executions == s.executions)
  }

  lemma Unchanged(s: State)
    ensures RowsAlike(s.db.capabilities, s.db.capabilities)
    ensures RunsAlike(s.db.executions, s.db.executions)
    ensures EntriesAlike(s.capabilities, s.capabilities)
  {
  }

  /** What a transaction that adds no row leaves alone. */
  ghost predicate DbAlike(db: Store.Tables, next: Option<Store.Tables>) {
    next.Some? ==>
      RowsAlike(db.capabilities, next.value.capabilities) && RunsAlike(db.executions, next.value.executions)
  }

  lemma FinishAlike(db: Store.Tables, execution: Id, outcome: ExecutionState)
    ensures DbAlike(db, Store.FinishExecution(db, execution, outcome))
  {
  }

  lemma ReloadAlike(db: Store.Tables, hash: Bytes)
    ensures DbAlike(db, Some(Store.RevokeOtherPolicies(db, hash)))
  {
  }

  lemma RevokeAlike(db: Store.Tables, id: Id)
    ensures DbAlike(db, Store.RevokeCapability(db, id))
  {
  }

  lemma OAuthAlike(db: Store.Tables, id: Id)
    ensures DbAlike(db, Store.ConsumeOAuth(db, id))
  {
  }

  lemma ConsumeAlike(db: Store.Tables, id: Id, execution: Id, step: Option<Store.TotpStep>)
    ensures var next := Store.ConsumeWithExecution(db, id, execution, step);
            next.Some? ==> RowsAlike(db.capabilities, next.value.capabilities)
  {
  }

  lemma ConsumeRowAlike(env: Env, s: State, t: nat, execution: Id, content: Ledger.EventContent, stored: bool)
    ensures RowsAlike(s.db.capabilities, ConsumeRow(env, s, t, execution, content, stored).db.capabilities)
  {
    hide RowsAlike, Transact, TotpClaim, Store.ConsumeWithExecution;
    Unchanged(s);
    if t in s.threads && s.threads[t].Verified? {
      var use := s.threads[t].use;
      ConsumeAlike(s.db, use.capability.terms.id, execution, TotpClaim(use));
    }
  }

  lemma FinishRowAlike(env: Env, s: State, t: nat, content: Ledger.EventContent, stored: bool)
    ensures RunsAlike(s.db.executions, FinishRow(env, s, t, content, stored).db.executions)
  {
    hide RunsAlike, Transact, Store.FinishExecution;
    Unchanged(s);
    if t in s.threads && s.threads[t].Finishing? {
      FinishAlike(s.db, s.threads[t].execution, if s.threads[t].completed then Completed else Failed);
    }
  }

  lemma ReloadRowsAlike(env: Env, s: State, t: nat, hash: Bytes, content: Ledger.EventContent, stored: bool)
    ensures RowsAlike(s.db.capabilities, ReloadRows(env, s, t, hash, content, stored).db.capabilities)
  {
    hide RowsAlike, RunsAlike, Transact, Store.RevokeOtherPolicies;
    Unchanged(s);
    ReloadAlike(s.db, hash);
  }

  lemma RevokeRowAlike(env: Env, s: State, t: nat, id: Id, content: Ledger.EventContent, stored: bool)
    ensures RowsAlike(s.db.capabilities, RevokeRow(env, s, t, id, content, stored).db.capabilities)
  {
    hide RowsAlike, RunsAlike, Transact, Store.RevokeCapability;
    Unchanged(s);
    RevokeAlike(s.db, id);
  }

  lemma SpendOAuthRowAlike(s: State, t: nat, stored: bool)
    ensures RowsAlike(s.db.capabilities, SpendOAuthRow(s, t, stored).db.capabilities)
  {
    hide RowsAlike, RunsAlike, Store.ConsumeOAuth;
    Unchanged(s);
    if t in s.threads && s.threads[t].OAuthTaken? {
      OAuthAlike(s.db, s.threads[t].oauth);
    }
  }

  lemma RevokedAlike(s: State, ids: set<Id>)
    ensures EntriesAlike(s.capabilities, RevokedAmong(s.capabilities, ids))
  {
  }

  lemma SpentAlike(s: State, t: nat, exchanged: bool)
    ensures EntriesAlike(s.capabilities, SpendOAuthEntry(s, t, exchanged).capabilities)
  {
  }

  lemma RevokeEntryAlike(s: State, t: nat)
    ensures EntriesAlike(s.capabilities, RevokeEntry(s, t).capabilities)
  {
  }

  /** A step that revokes entries revokes them among those there are. */
  lemma WithdrawEntriesAlike(env: Env, s: State, t: nat, step: WithdrawStep)
    ensures EntriesAlike(s.capabilities, WithdrawNext(env, s, t, step).capabilities)
  {
    hide EntriesAlike, RevokedAmong, OfRequest, OfSessions, OfOtherPolicies, OfAgent, RevokeEntry, SweepSessions,
         CloseBrowser, ReloadRows, RevokeRow, ReplacePolicy, ListGrants, RevokeGrants;
    Unchanged(s);
    RevokeEntryAlike(s, t);
    match step
    case DoCancel(_, request) => RevokedAlike(s, OfRequest(s.capabilities, request));
    case DoRevokeSessionEntries =>
      if t in s.threads && s.threads[t].SessionsSwept? {
        RevokedAlike(s, OfSessions(s.capabilities, s.threads[t].stale));
      }
    case DoRevokePolicyEntries =>
      if t in s.threads && s.threads[t].PolicyReplaced? {
        RevokedAlike(s, OfOtherPolicies(s.capabilities, s.threads[t].hash));
      }
    case DoDisableAgent(agent) => RevokedAlike(s, OfAgent(s.capabilities, agent));
    case _ =>
  }

  lemma AskFrame(env: Env, s: State, t: nat, step: AskStep)
    ensures Frame(s, AskNext(env, s, t, step), AskWrites(step))
  {
    hide RowsAlike, RunsAlike, EntriesAlike, Submit, BindAgent, MarkRequested, RecordRequested, CheckSession,
         Measure, Evaluate, Route, TouchGrant, RecordGrantUse, StoreApproval, PublishApproval, GiveUp, Report;
    Unchanged(s);
    match step
    case DoSubmit(_, _, _) =>
    case DoBindAgent =>
    case DoMarkRequested(_) =>
    case DoRecordRequested(_, _) =>
    case DoCheckSession(_) =>
    case DoMeasure(_, _) =>
    case DoEvaluate(_, _) =>
    case DoRoute(_, _) =>
    case DoTouchGrant(_) =>
    case DoRecordGrantUse(_, _) =>
    case DoStoreApproval(_, _, _) =>
    case DoPublishApproval =>
    case DoGiveUp =>
    case DoReport =>
  }

  lemma DecideFrame(env: Env, s: State, t: nat, step: DecideStep)
    ensures Frame(s, DecideNext(env, s, t, step), DecideWrites(step))
  {
    hide RowsAlike, RunsAlike, EntriesAlike, BeginDecide, Judge, StoreDecision, DropApproval;
    Unchanged(s);
    match step
    case DoBeginDecide(_) =>
    case DoJudge(_, _, _, _) =>
    case DoStoreDecision(_, _) =>
    case DoDropApproval =>
  }

  lemma IssueFrame(env: Env, s: State, t: nat, step: IssueStep)
    ensures Frame(s, IssueNext(env, s, t, step), IssueWrites(step))
  {
    hide RowsAlike, RunsAlike, EntriesAlike, MintRow, PublishCapability, QueueOffer;
    Unchanged(s);
    match step
    case DoMintRow(_, _, _, _) =>
    case DoPublishCapability =>
    case DoQueueOffer =>
  }

  lemma PollFrame(env: Env, s: State, t: nat, step: PollStep)
    ensures Frame(s, PollNext(env, s, t, step), PollWrites(step))
  {
    hide RowsAlike, RunsAlike, EntriesAlike, BeginNext, PopOffer, InspectOffer;
    Unchanged(s);
    match step
    case DoBeginNext(_, _) =>
    case DoPopOffer =>
    case DoInspectOffer(_, _) =>
  }

  lemma ConsumeFrame(env: Env, s: State, t: nat, step: ConsumeStep)
    ensures Frame(s, ConsumeNext(env, s, t, step), ConsumeWrites(step))
  {
    hide RowsAlike, RunsAlike, EntriesAlike, BeginConsume, Snapshot, ConsumeRow, WriteBack, TrackExecution, Release;
    Unchanged(s);
    match step
    case DoBeginConsume(_, _, _, _) =>
    case DoSnapshot =>
    case DoConsumeRow(execution, content, stored) => ConsumeRowAlike(env, s, t, execution, content, stored);
    case DoWriteBack =>
    case DoTrackExecution =>
    case DoRelease(_, _, _) =>
  }

  lemma FinishFrame(env: Env, s: State, t: nat, step: FinishStep)
    ensures Frame(s, FinishNext(env, s, t, step), FinishWrites(step))
  {
    hide RowsAlike, RunsAlike, EntriesAlike, BeginResult, FinishRow, WriteExecution;
    Unchanged(s);
    match step
    case DoBeginResult(_, _) =>
    case DoFinishRow(content, stored) => FinishRowAlike(env, s, t, content, stored);
    case DoWriteExecution =>
  }

  lemma WithdrawFrame(env: Env, s: State, t: nat, step: WithdrawStep)
    ensures Frame(s, WithdrawNext(env, s, t, step), WithdrawWrites(step))
  {
    hide RowsAlike, RunsAlike, EntriesAlike, Cancel, SweepSessions, RevokeSessionEntries, ReloadRows,
         ReplacePolicy, RevokePolicyEntries, RevokeRow, RevokeEntry, CloseBrowser, DisableAgent, ListGrants,
         RevokeGrants;
    Unchanged(s);
    WithdrawEntriesAlike(env, s, t, step);
    match step
    case DoCancel(_, _) =>
    case DoSweepSessions(_) =>
    case DoRevokeSessionEntries =>
    case DoReloadRows(hash, content, stored) => ReloadRowsAlike(env, s, t, hash, content, stored);
    case DoReplacePolicy =>
    case DoRevokePolicyEntries =>
    case DoRevokeRow(id, content, stored) => RevokeRowAlike(env, s, t, id, content, stored);
    case DoRevokeEntry =>
    case DoCloseBrowser(_) =>
    case DoDisableAgent(_) =>
    case DoListGrants(_) =>
    case DoRevokeGrants(_, _) =>
  }

  lemma CallbackFrame(env: Env, s: State, t: nat, step: CallbackStep)
    ensures Frame(s, CallbackNext(env, s, t, step), CallbackWrites(step))
  {
    hide RowsAlike, RunsAlike, EntriesAlike, BeginOAuth, TakeOAuth, SpendOAuthRow, SpendOAuthEntry;
    Unchanged(s);
    match step
    case DoBeginOAuth(_) =>
    case DoTakeOAuth(_, _) =>
    case DoSpendOAuthRow(stored) => SpendOAuthRowAlike(s, t, stored);
    case DoSpendOAuthEntry(exchanged) => SpentAlike(s, t, exchanged);
  }

  lemma WorldFrame(env: Env, s: State, step: WorldStep)
    requires !step.DoRestart?
    ensures Frame(s, WorldNext(env, s, step), WorldWrites(step))
  {
    hide RowsAlike, RunsAlike, EntriesAlike, RegisterSession, Heartbeat, ReportPage, RecordOther,
         WriteCheckpoint, InsertGrant;
    Unchanged(s);
    match step
    case DoRegisterSession(_, _, _, _) =>
    case DoHeartbeat(_, _) =>
    case DoReportPage(_, _, _) =>
    case DoRecordOther(_, _) =>
    case DoWriteCheckpoint(_, _) =>
    case DoInsertGrant(_, _, _, _) =>
  }

  lemma StepFrame(env: Env, s: State, step: Step)
    requires !IsRestart(step)
    ensures Frame(s, Next(env, s, step), Written(step))
  {
    hide Frame, AskNext, DecideNext, IssueNext, PollNext, ConsumeNext, FinishNext, WithdrawNext, CallbackNext,
         WorldNext;
    match step
    case Ask(t, ask) => AskFrame(env, s, t, ask);
    case Decide(t, decide) => DecideFrame(env, s, t, decide);
    case Issue(t, issue) => IssueFrame(env, s, t, issue);
    case Poll(t, poll) => PollFrame(env, s, t, poll);
    case Consume(t, consume) => ConsumeFrame(env, s, t, consume);
    case Finish(t, finish) => FinishFrame(env, s, t, finish);
    case Withdraw(t, withdraw) => WithdrawFrame(env, s, t, withdraw);
    case Callback(t, callback) => CallbackFrame(env, s, t, callback);
    case World(world) => WorldFrame(env, s, world);
  }

  // ---------------------------------------------------------------- threads

  /** The thread a step moves, if it moves one. */
  function Actor(step: Step): Option<nat> {
    match step
    case Ask(t, _) => Some(t)
    case Decide(t, _) => Some(t)
    case Issue(t, _) => Some(t)
    case Poll(t, _) => Some(t)
    case Consume(t, _) => Some(t)
    case Finish(t, _) => Some(t)
    case Withdraw(t, withdraw) =>
      if withdraw.DoCancel? || withdraw.DoCloseBrowser? || withdraw.DoDisableAgent? then None else Some(t)
    case Callback(t, _) => Some(t)
    case World(_) => None
  }

  function Was(s: State, t: nat): Option<Point> {
    if t in s.threads then Some(s.threads[t]) else None
  }

  function AuthorizationOf(p: Point): Option<Authorization> {
    match p
    case Authorized(a) => Some(a)
    case Granting(a, _) => Some(a)
    case Touched(a, _) => Some(a)
    case Requesting(a) => Some(a)
    case ApprovalStored(_, pending) => Some(pending.authorization)
    case Deciding(_, pending) => Some(pending.authorization)
    case Judged(_, pending, _, _) => Some(pending.authorization)
    case DecisionStored(_, pending, _, _) => Some(pending.authorization)
    case Minting(a, _) => Some(a)
    case _ => None
  }

  /** The request a thread acts for; a result and a callback look it up. */
  function RequestOf(s: State, p: Point): Option<Id> {
    match p
    case Admitted(request, _) => Some(request)
    case Bound(request, _) => Some(request)
    case Screening(request, _, _) => Some(request)
    case Screened(request, _, _) => Some(request)
    case SessionSeen(request, _, _, _, _) => Some(request)
    case Measured(request, _, _, _) => Some(request)
    case RowMinted(c, _) => Some(c.terms.subject.request)
    case EntryMinted(c) => Some(c.terms.subject.request)
    case Verified(use) => Some(use.capability.terms.subject.request)
    case RowConsumed(_, use) => Some(use.capability.terms.subject.request)
    case EntryConsumed(_, use) => Some(use.capability.terms.subject.request)
    case RowFinished(e, _) => if e in s.executions then Some(s.executions[e].request) else None
    case OAuthFound(id) => if id in s.oauth then Some(s.oauth[id].request) else None
    case OAuthTaken(_, request) => Some(request)
    case OAuthSpent(_, request) => Some(request)
    case Reporting(request, _, _) => Some(request)
    case _ => if AuthorizationOf(p).Some? then Some(AuthorizationOf(p).value.subject.request) else None
  }

  /** The points whose next step may be to report the request's state. */
  predicate MayReport(p: Point) {
    match p
    case DecisionStored(_, _, decision, _) => decision != Store.Decision.Approved
    case Minting(_, authority) => !authority.ByApproval?
    case _ =>
      p.Screening? || p.Screened? || p.SessionSeen? || p.Measured? || p.Authorized? || p.Touched? || p.Requesting?
      || p.ApprovalStored? || p.EntryMinted? || p.RowFinished? || p.OAuthFound? || p.OAuthTaken? || p.OAuthSpent?
  }

  /** How a step may move a thread to `q`; `p` is where it was, if anywhere. */
  predicate Leads(s: State, step: Step, p: Option<Point>, q: Point) {
    match q
    case Admitted(r, _) =>
      p == None && step.Ask? && step.ask.DoSubmit? && step.ask.request == r && r !in s.fingerprints
    case Bound(r, a) => p == Some(Admitted(r, a))
    case Screening(r, a, at) =>
      p == Some(Bound(r, a)) && step.Ask? && step.ask.DoMarkRequested? && step.ask.now == at
    case Screened(r, a, at) => p == Some(Screening(r, a, at)) && step.Ask? && step.ask.DoRecordRequested?
    case SessionSeen(r, a, at, _, seen) =>
      p == Some(Screened(r, a, at)) && seen.active && at - seen.heartbeat <= SESSION_TTL
    case Measured(r, a, _, m) =>
      && step.Ask? && step.ask.DoMeasure?
      && p.Some? && p.value.SessionSeen? && p.value == SessionSeen(r, a, m.at, p.value.session, m.session)
    case Authorized(a) =>
      && p == Some(Measured(a.subject.request, a.subject.agent, a.binding, a.measurement))
      && a.subject.policyHash == s.policyHash
    case Granting(a, standing) =>
      && p == Some(Authorized(a)) && a.presence
      && standing.id in s.grants && s.grants[standing.id] == standing.grant && Covering(a, standing.grant)
    case Touched(a, standing) => p == Some(Granting(a, standing))
    case Requesting(a) => p == Some(Authorized(a)) && a.presence
    case ApprovalStored(id, pending) =>
      && step.Ask? && step.ask.DoStoreApproval? && step.ask.approval == id
      && p == Some(Requesting(pending.authorization)) && pending == PendingFor(pending.authorization)
    case Deciding(id, pending) => p == None && id in s.approvals && s.approvals[id] == pending
    case Judged(id, pending, decision, verdict) =>
      && p == Some(Deciding(id, pending)) && decision != Store.Pending
      && step.Decide? && step.decide.DoJudge? && step.decide.now == verdict.at
      && verdict.requestedAt == pending.requestedAt
      && (decision == Store.Decision.Approved ==> Convincing(pending, verdict))
    case DecisionStored(id, pending, decision, verdict) =>
      step.Decide? && step.decide.DoStoreDecision? && p == Some(Judged(id, pending, decision, verdict))
    case Minting(a, ByPolicy) => p == Some(Authorized(a)) && !a.presence
    case Minting(a, ByGrant(standing)) => p == Some(Touched(a, standing))
    case Minting(a, ByApproval(v)) =>
      && p.Some? && p.value.DecisionStored?
      && p.value == DecisionStored(p.value.approval, p.value.pending, Store.Decision.Approved, v)
      && p.value.pending.authorization == a
    case RowMinted(c, generator) =>
      && step.Issue? && step.issue.DoMintRow? && p.Some? && p.value.Minting?
      && c == NewCapability(p.value.authorization, step.issue.id, step.issue.now)
      && generator == p.value.authorization.generator
    case EntryMinted(c) => p.Some? && p.value.RowMinted? && p.value.capability == c
    case Polling(session) => p == None || (p.value.Popped? && p.value.session == session)
    case Popped(session, _) => step.Poll? && step.poll.DoPopOffer? && p == Some(Polling(session))
    case Keyed(_, _, _) => p == None
    case Verified(use) =>
      && p.Some? && p.value.Keyed? && use.context == p.value.context && use.now == p.value.now
      && p.value.presented.jti in s.capabilities && Cleared(s.capabilities[p.value.presented.jti], use)
    case RowConsumed(e, use) =>
      step.Consume? && step.consume.DoConsumeRow? && step.consume.execution == e && p == Some(Verified(use))
    case EntryConsumed(e, use) => p == Some(RowConsumed(e, use))
    case Releasing(e, use) => p == Some(EntryConsumed(e, use))
    case Finishing(e, _) => p == None && e in s.executions
    case RowFinished(e, outcome) =>
      step.Finish? && step.finish.DoFinishRow? && p.Some? && p.value.Finishing? && p.value.execution == e
    case SessionsSwept(_) => p == None
    case RowsRevoked(_) => p == None && step.Withdraw? && step.withdraw.DoReloadRows?
    case PolicyReplaced(hash) => p == Some(RowsRevoked(hash))
    case RowRevoked(id) =>
      p == None && step.Withdraw? && step.withdraw.DoRevokeRow? && step.withdraw.id == id
    case GrantsListed(_) => p == None
    case OAuthFound(id) => p == None && id in s.capabilities
    case OAuthTaken(id, r) => p == Some(OAuthFound(id)) && id in s.oauth && s.oauth[id].request == r
    case OAuthSpent(id, r) =>
      step.Callback? && step.callback.DoSpendOAuthRow? && p == Some(OAuthTaken(id, r))
    case Reporting(r, state, _) =>
      p.Some? && MayReport(p.value) && RequestOf(s, p.value) == Some(r) && state != Cancelled
  }

  /** Where thread `t` may be after the step. */
  ghost predicate Moved(s: State, s': State, step: Step, t: nat) {
    || s'.threads == s.threads
    || s'.threads == s.threads - {t}
    || (t in s'.threads && s'.threads == s.threads[t := s'.threads[t]] && Leads(s, step, Was(s, t), s'.threads[t]))
  }

  /** No thread moves but the step's own, and that only along `Leads`. */
  ghost predicate Threads(s: State, s': State, step: Step) {
    match Actor(step)
    case None => s'.threads == s.threads
    case Some(t) => Moved(s, s', step, t)
  }

  /** Thread `t` goes on at `q`, or ends. */
  lemma Goes(s: State, s': State, step: Step, t: nat, q: Option<Point>)
    requires s'.threads == s.threads || s'.threads == Continued(s.threads, t, q)
    requires q.Some? ==> Leads(s, step, Was(s, t), q.value)
    ensures Moved(s, s', step, t)
  {
    hide Leads;
  }

  lemma ReportLeads(s: State, step: Step, p: Point, q: Point)
    requires q.Reporting? && MayReport(p) && RequestOf(s, p) == Some(q.request) && q.state != Cancelled
    ensures Leads(s, step, Some(p), q)
  {
  }

  lemma MintLeads(s: State, t: nat, p: Point, id: Id, now: int, content: Ledger.EventContent, stored: bool)
    requires p.Minting?
    ensures Leads(s, Issue(t, DoMintRow(id, now, content, stored)), Some(p),
                  RowMinted(NewCapability(p.authorization, id, now), p.authorization.generator))
  {
    hide NewCapability;
  }

  lemma SpendLeads(s: State, t: nat, p: Point, stored: bool)
    requires p.OAuthTaken?
    ensures Leads(s, Callback(t, DoSpendOAuthRow(stored)), Some(p), OAuthSpent(p.oauth, p.request))
  {
  }

  lemma SubmitMoves(s: State, t: nat, request: Id, agent: Id, fingerprint: Bytes)
    ensures Moved(s, Submit(s, t, request, agent, fingerprint), Ask(t, DoSubmit(request, agent, fingerprint)), t)
  {
  }

  lemma BindAgentMoves(s: State, t: nat)
    ensures Moved(s, BindAgent(s, t), Ask(t, DoBindAgent), t)
  {
  }

  lemma MarkRequestedMoves(s: State, t: nat, now: int)
    ensures Moved(s, MarkRequested(s, t, now), Ask(t, DoMarkRequested(now)), t)
  {
  }

  lemma RecordRequestedMoves(env: Env, s: State, t: nat, content: Ledger.EventContent, stored: bool)
    ensures Moved(s, RecordRequested(env, s, t, content, stored), Ask(t, DoRecordRequested(content, stored)), t)
  {
    hide Recorded;
  }

  lemma CheckSessionMoves(s: State, t: nat, session: Id)
    ensures Moved(s, CheckSession(s, t, session), Ask(t, DoCheckSession(session)), t)
  {
  }

  lemma MeasureMoves(s: State, t: nat, tab: nat, target: Origin)
    ensures Moved(s, Measure(s, t, tab, target), Ask(t, DoMeasure(tab, target)), t)
  {
    hide WithMeasurement;
  }

  lemma EvaluateMoves(s: State, t: nat, choice: Choice, answer: PolicyAnswer)
    ensures Moved(s, Evaluate(s, t, choice, answer), Ask(t, DoEvaluate(choice, answer)), t)
  {
    hide Policy.RiskOf;
  }

  lemma RouteMoves(s: State, t: nat, found: Option<Id>, readable: bool)
    ensures Moved(s, Route(s, t, found, readable), Ask(t, DoRoute(found, readable)), t)
  {
    hide Finds, Covering;
  }

  lemma TouchGrantMoves(s: State, t: nat, stored: bool)
    ensures Moved(s, TouchGrant(s, t, stored), Ask(t, DoTouchGrant(stored)), t)
  {
    hide Grants.Touch;
  }

  lemma RecordGrantUseMoves(env: Env, s: State, t: nat, content: Ledger.EventContent, stored: bool)
    ensures Moved(s, RecordGrantUse(env, s, t, content, stored), Ask(t, DoRecordGrantUse(content, stored)), t)
  {
    hide Recorded;
  }

  lemma StoreApprovalMoves(env: Env, s: State, t: nat, approval: Id, content: Ledger.EventContent, stored: bool)
    ensures Moved(s, StoreApproval(env, s, t, approval, content, stored),
                  Ask(t, DoStoreApproval(approval, content, stored)), t)
  {
    hide Transact, DigestOf;
  }

  lemma PublishApprovalMoves(s: State, t: nat)
    ensures Moved(s, PublishApproval(s, t), Ask(t, DoPublishApproval), t)
  {
  }

  lemma GiveUpMoves(s: State, t: nat)
    ensures Moved(s, GiveUp(s, t), Ask(t, DoGiveUp), t)
  {
  }

  lemma ReportMoves(s: State, t: nat)
    ensures Moved(s, Report(s, t), Ask(t, DoReport), t)
  {
    hide Noted;
  }

  lemma BeginDecideMoves(s: State, t: nat, approval: Id)
    ensures Moved(s, BeginDecide(s, t, approval), Decide(t, DoBeginDecide(approval)), t)
  {
  }

  lemma JudgeMoves(s: State, t: nat, approve: bool, echoed: Digest, presenceVerified: bool, now: int)
    ensures Moved(s, Judge(s, t, approve, echoed, presenceVerified, now),
                  Decide(t, DoJudge(approve, echoed, presenceVerified, now)), t)
  {
  }

  lemma StoreDecisionMoves(env: Env, s: State, t: nat, content: Ledger.EventContent, stored: bool)
    ensures Moved(s, StoreDecision(env, s, t, content, stored), Decide(t, DoStoreDecision(content, stored)), t)
  {
    hide Transact;
  }

  lemma DropApprovalMoves(s: State, t: nat)
    ensures Moved(s, DropApproval(s, t), Decide(t, DoDropApproval), t)
  {
  }

  lemma MintRowMoves(env: Env, s: State, t: nat, id: Id, now: int, content: Ledger.EventContent, stored: bool)
    ensures Moved(s, MintRow(env, s, t, id, now, content, stored), Issue(t, DoMintRow(id, now, content, stored)), t)
  {
    hide Transact, NewCapability, NewRow, Moved, Leads, Continued;
    var step := Issue(t, DoMintRow(id, now, content, stored));
    var s' := MintRow(env, s, t, id, now, content, stored);
    if t in s.threads && s.threads[t].Minting? {
      var p := s.threads[t];
      MintLeads(s, t, p, id, now, content, stored);
      if !p.authority.ByApproval? {
        ReportLeads(s, step, p, Failing(p.authorization.subject.request));
      }
      if Transact(env, s, Store.InsertCapability(s.db, id, NewRow(p.authorization, s.boot)), content, stored).0 {
        Goes(s, s', step, t, Some(RowMinted(NewCapability(p.authorization, id, now), p.authorization.generator)));
      } else {
        Goes(s, s', step, t,
             if p.authority.ByApproval? then None else Some(Failing(p.authorization.subject.request)));
      }
    } else {
      Goes(s, s, step, t, None);
    }
  }

  lemma PublishCapabilityMoves(s: State, t: nat)
    ensures Moved(s, PublishCapability(s, t), Issue(t, DoPublishCapability), t)
  {
  }

  lemma QueueOfferMoves(s: State, t: nat)
    ensures Moved(s, QueueOffer(s, t), Issue(t, DoQueueOffer), t)
  {
    hide QueueOf;
  }

  lemma BeginNextMoves(s: State, t: nat, session: Id, now: int)
    ensures Moved(s, BeginNext(s, t, session, now), Poll(t, DoBeginNext(session, now)), t)
  {
  }

  lemma PopOfferMoves(s: State, t: nat)
    ensures Moved(s, PopOffer(s, t), Poll(t, DoPopOffer), t)
  {
  }

  lemma InspectOfferMoves(s: State, t: nat, now: int, recipeUsable: bool)
    ensures Moved(s, InspectOffer(s, t, now, recipeUsable), Poll(t, DoInspectOffer(now, recipeUsable)), t)
  {
    hide Offerable, PrepareOAuth;
  }

  lemma BeginConsumeMoves(s: State, t: nat, presented: Claims, context: Binding, proofOk: bool, now: int)
    ensures Moved(s, BeginConsume(s, t, presented, context, proofOk, now),
                  Consume(t, DoBeginConsume(presented, context, proofOk, now)), t)
  {
  }

  /** A copy that passes the verifier is of an entry that is live and has uses
      left, in the context it is bound to and inside its release window. */
  lemma ExamineClears(env: Env, s: State, presented: Claims, context: Binding, now: int)
    ensures var q := Examine(env, s, presented, context, now);
            q.Some? ==>
              && presented.jti in s.capabilities && q.value.Verified?
              && q.value.use.context == context && q.value.use.now == now
              && Cleared(s.capabilities[presented.jti], q.value.use)
  {
  }

  lemma SnapshotMoves(env: Env, s: State, t: nat)
    ensures Moved(s, Snapshot(env, s, t), Consume(t, DoSnapshot), t)
  {
    hide Examine, Cleared;
    if t in s.threads && s.threads[t].Keyed? {
      ExamineClears(env, s, s.threads[t].presented, s.threads[t].context, s.threads[t].now);
    }
  }

  lemma ConsumeRowMoves(env: Env, s: State, t: nat, execution: Id, content: Ledger.EventContent, stored: bool)
    ensures Moved(s, ConsumeRow(env, s, t, execution, content, stored),
                  Consume(t, DoConsumeRow(execution, content, stored)), t)
  {
    hide Transact, TotpClaim;
  }

  lemma WriteBackMoves(s: State, t: nat)
    ensures Moved(s, WriteBack(s, t), Consume(t, DoWriteBack), t)
  {
  }

  lemma TrackExecutionMoves(s: State, t: nat)
    ensures Moved(s, TrackExecution(s, t), Consume(t, DoTrackExecution), t)
  {
  }

  lemma ReleaseMoves(env: Env, s: State, t: nat, secret: Option<Bytes>, content: Ledger.EventContent, stored: bool)
    ensures Moved(s, Release(env, s, t, secret, content, stored), Consume(t, DoRelease(secret, content, stored)), t)
  {
    hide Recorded, FieldsReady, WithCode;
  }

  lemma BeginResultMoves(s: State, t: nat, execution: Id, completed: bool)
    ensures Moved(s, BeginResult(s, t, execution, completed), Finish(t, DoBeginResult(execution, completed)), t)
  {
  }

  lemma FinishRowMoves(env: Env, s: State, t: nat, content: Ledger.EventContent, stored: bool)
    ensures Moved(s, FinishRow(env, s, t, content, stored), Finish(t, DoFinishRow(content, stored)), t)
  {
    hide Transact, Ledger.CreateEvent, Store.FinishExecution;
  }

  lemma WriteExecutionMoves(s: State, t: nat)
    ensures Moved(s, WriteExecution(s, t), Finish(t, DoWriteExecution), t)
  {
    hide Concluded;
  }

  lemma SweepSessionsMoves(s: State, t: nat, now: int)
    ensures Moved(s, SweepSessions(s, t, now), Withdraw(t, DoSweepSessions(now)), t)
  {
    hide StaleSessions, Closed;
  }

  lemma RevokeSessionEntriesMoves(s: State, t: nat)
    ensures Moved(s, RevokeSessionEntries(s, t), Withdraw(t, DoRevokeSessionEntries), t)
  {
    hide RevokedAmong;
  }

  lemma ReloadRowsMoves(env: Env, s: State, t: nat, hash: Bytes, content: Ledger.EventContent, stored: bool)
    ensures Moved(s, ReloadRows(env, s, t, hash, content, stored), Withdraw(t, DoReloadRows(hash, content, stored)), t)
  {
    hide Transact, Store.RevokeOtherPolicies;
  }

  lemma ReplacePolicyMoves(s: State, t: nat)
    ensures Moved(s, ReplacePolicy(s, t), Withdraw(t, DoReplacePolicy), t)
  {
  }

  lemma RevokePolicyEntriesMoves(s: State, t: nat)
    ensures Moved(s, RevokePolicyEntries(s, t), Withdraw(t, DoRevokePolicyEntries), t)
  {
    hide RevokedAmong;
  }

  lemma RevokeRowMoves(env: Env, s: State, t: nat, id: Id, content: Ledger.EventContent, stored: bool)
    ensures Moved(s, RevokeRow(env, s, t, id, content, stored), Withdraw(t, DoRevokeRow(id, content, stored)), t)
  {
    hide Transact, Store.RevokeCapability;
  }

  lemma RevokeEntryMoves(s: State, t: nat)
    ensures Moved(s, RevokeEntry(s, t), Withdraw(t, DoRevokeEntry), t)
  {
  }

  lemma ListGrantsMoves(s: State, t: nat, selector: Grants.Selector)
    ensures Moved(s, ListGrants(s, t, selector), Withdraw(t, DoListGrants(selector)), t)
  {
    hide Grants.TargetedIds;
  }

  lemma RevokeGrantsMoves(s: State, t: nat, reached: set<Id>, at: int)
    ensures Moved(s, RevokeGrants(s, t, reached, at), Withdraw(t, DoRevokeGrants(reached, at)), t)
  {
    hide Grants.RevokeIds;
  }

  lemma BeginOAuthMoves(env: Env, s: State, t: nat, presented: Claims)
    ensures Moved(s, BeginOAuth(env, s, t, presented), Callback(t, DoBeginOAuth(presented)), t)
  {
  }

  lemma TakeOAuthMoves(s: State, t: nat, session: Id, tab: nat)
    ensures Moved(s, TakeOAuth(s, t, session, tab), Callback(t, DoTakeOAuth(session, tab)), t)
  {
    hide Forget;
  }

  lemma SpendOAuthRowMoves(s: State, t: nat, stored: bool)
    ensures Moved(s, SpendOAuthRow(s, t, stored), Callback(t, DoSpendOAuthRow(stored)), t)
  {
    hide Store.ConsumeOAuth, Moved, Leads;
    var step := Callback(t, DoSpendOAuthRow(stored));
    var s' := SpendOAuthRow(s, t, stored);
    if t in s.threads && s.threads[t].OAuthTaken? {
      var p := s.threads[t];
      SpendLeads(s, t, p, stored);
      ReportLeads(s, step, p, Reporting(p.request, RequestFailed, true));
      Goes(s, s', step, t, Was(s', t));
    } else {
      Goes(s, s, step, t, None);
    }
  }

  lemma SpendOAuthEntryMoves(s: State, t: nat, exchanged: bool)
    ensures Moved(s, SpendOAuthEntry(s, t, exchanged), Callback(t, DoSpendOAuthEntry(exchanged)), t)
  {
    hide WithSpent;
  }

  lemma AskMoves(env: Env, s: State, t: nat, step: AskStep)
    ensures Threads(s, AskNext(env, s, t, step), Ask(t, step))
  {
    hide Moved, Submit, BindAgent, MarkRequested, RecordRequested, CheckSession, Measure, Evaluate, Route,
         TouchGrant, RecordGrantUse, StoreApproval, PublishApproval, GiveUp, Report;
    match step
    case DoSubmit(request, agent, fingerprint) => SubmitMoves(s, t, request, agent, fingerprint);
    case DoBindAgent => BindAgentMoves(s, t);
    case DoMarkRequested(now) => MarkRequestedMoves(s, t, now);
    case DoRecordRequested(content, stored) => RecordRequestedMoves(env, s, t, content, stored);
    case DoCheckSession(session) => CheckSessionMoves(s, t, session);
    case DoMeasure(tab, target) => MeasureMoves(s, t, tab, target);
    case DoEvaluate(choice, answer) => EvaluateMoves(s, t, choice, answer);
    case DoRoute(found, readable) => RouteMoves(s, t, found, readable);
    case DoTouchGrant(stored) => TouchGrantMoves(s, t, stored);
    case DoRecordGrantUse(content, stored) => RecordGrantUseMoves(env, s, t, content, stored);
    case DoStoreApproval(approval, content, stored) => StoreApprovalMoves(env, s, t, approval, content, stored);
    case DoPublishApproval => PublishApprovalMoves(s, t);
    case DoGiveUp => GiveUpMoves(s, t);
    case DoReport => ReportMoves(s, t);
  }

  lemma DecideMoves(env: Env, s: State, t: nat, step: DecideStep)
    ensures Threads(s, DecideNext(env, s, t, step), Decide(t, step))
  {
    hide Moved, BeginDecide, Judge, StoreDecision, DropApproval;
    match step
    case DoBeginDecide(approval) => BeginDecideMoves(s, t, approval);
    case DoJudge(approve, echoed, presenceVerified, now) => JudgeMoves(s, t, approve, echoed, presenceVerified, now);
    case DoStoreDecision(content, stored) => StoreDecisionMoves(env, s, t, content, stored);
    case DoDropApproval => DropApprovalMoves(s, t);
  }

  lemma IssueMoves(env: Env, s: State, t: nat, step: IssueStep)
    ensures Threads(s, IssueNext(env, s, t, step), Issue(t, step))
  {
    hide Moved, MintRow, PublishCapability, QueueOffer;
    match step
    case DoMintRow(id, now, content, stored) => MintRowMoves(env, s, t, id, now, content, stored);
    case DoPublishCapability => PublishCapabilityMoves(s, t);
    case DoQueueOffer => QueueOfferMoves(s, t);
  }

  lemma PollMoves(env: Env, s: State, t: nat, step: PollStep)
    ensures Threads(s, PollNext(env, s, t, step), Poll(t, step))
  {
    hide Moved, BeginNext, PopOffer, InspectOffer;
    match step
    case DoBeginNext(session, now) => BeginNextMoves(s, t, session, now);
    case DoPopOffer => PopOfferMoves(s, t);
    case DoInspectOffer(now, recipeUsable) => InspectOfferMoves(s, t, now, recipeUsable);
  }

  lemma ConsumeMoves(env: Env, s: State, t: nat, step: ConsumeStep)
    ensures Threads(s, ConsumeNext(env, s, t, step), Consume(t, step))
  {
    hide Moved, BeginConsume, Snapshot, ConsumeRow, WriteBack, TrackExecution, Release;
    match step
    case DoBeginConsume(presented, context, proofOk, now) => BeginConsumeMoves(s, t, presented, context, proofOk, now);
    case DoSnapshot => SnapshotMoves(env, s, t);
    case DoConsumeRow(execution, content, stored) => ConsumeRowMoves(env, s, t, execution, content, stored);
    case DoWriteBack => WriteBackMoves(s, t);
    case DoTrackExecution => TrackExecutionMoves(s, t);
    case DoRelease(secret, content, stored) => ReleaseMoves(env, s, t, secret, content, stored);
  }

  lemma FinishMoves(env: Env, s: State, t: nat, step: FinishStep)
    ensures Threads(s, FinishNext(env, s, t, step), Finish(t, step))
  {
    hide Moved, BeginResult, FinishRow, WriteExecution;
    match step
    case DoBeginResult(execution, completed) => BeginResultMoves(s, t, execution, completed);
    case DoFinishRow(content, stored) => FinishRowMoves(env, s, t, content, stored);
    case DoWriteExecution => WriteExecutionMoves(s, t);
  }

  lemma WithdrawMoves(env: Env, s: State, t: nat, step: WithdrawStep)
    ensures Threads(s, WithdrawNext(env, s, t, step), Withdraw(t, step))
  {
    hide Moved, Cancel, SweepSessions, RevokeSessionEntries, ReloadRows, ReplacePolicy, RevokePolicyEntries,
         RevokeRow, RevokeEntry, CloseBrowser, DisableAgent, ListGrants, RevokeGrants;
    match step
    case DoCancel(agent, request) =>
    case DoSweepSessions(now) => SweepSessionsMoves(s, t, now);
    case DoRevokeSessionEntries => RevokeSessionEntriesMoves(s, t);
    case DoReloadRows(hash, content, stored) => ReloadRowsMoves(env, s, t, hash, content, stored);
    case DoReplacePolicy => ReplacePolicyMoves(s, t);
    case DoRevokePolicyEntries => RevokePolicyEntriesMoves(s, t);
    case DoRevokeRow(id, content, stored) => RevokeRowMoves(env, s, t, id, content, stored);
    case DoRevokeEntry => RevokeEntryMoves(s, t);
    case DoCloseBrowser(instance) =>
    case DoDisableAgent(agent) =>
    case DoListGrants(selector) => ListGrantsMoves(s, t, selector);
    case DoRevokeGrants(reached, at) => RevokeGrantsMoves(s, t, reached, at);
  }

  lemma CallbackMoves(env: Env, s: State, t: nat, step: CallbackStep)
    ensures Threads(s, CallbackNext(env, s, t, step), Callback(t, step))
  {
    hide Moved, BeginOAuth, TakeOAuth, SpendOAuthRow, SpendOAuthEntry;
    match step
    case DoBeginOAuth(presented) => BeginOAuthMoves(env, s, t, presented);
    case DoTakeOAuth(session, tab) => TakeOAuthMoves(s, t, session, tab);
    case DoSpendOAuthRow(stored) => SpendOAuthRowMoves(s, t, stored);
    case DoSpendOAuthEntry(exchanged) => SpendOAuthEntryMoves(s, t, exchanged);
  }

  lemma WorldMoves(env: Env, s: State, step: WorldStep)
    requires !step.DoRestart?
    ensures Threads(s, WorldNext(env, s, step), World(step))
  {
    hide RegisterSession, Heartbeat, ReportPage, RecordOther, WriteCheckpoint, InsertGrant;
    match step
    case DoRegisterSession(_, _, _, _) =>
    case DoHeartbeat(_, _) =>
    case DoReportPage(_, _, _) =>
    case DoRecordOther(_, _) =>
    case DoWriteCheckpoint(_, _) =>
    case DoInsertGrant(_, _, _, _) =>
  }

  lemma StepMoves(env: Env, s: State, step: Step)
    requires !IsRestart(step)
    ensures Threads(s, Next(env, s, step), step)
  {
    hide Threads, AskNext, DecideNext, IssueNext, PollNext, ConsumeNext, FinishNext, WithdrawNext, CallbackNext,
         WorldNext;
    match step
    case Ask(t, ask) => AskMoves(env, s, t, ask);
    case Decide(t, decide) => DecideMoves(env, s, t, decide);
    case Issue(t, issue) => IssueMoves(env, s, t, issue);
    case Poll(t, poll) => PollMoves(env, s, t, poll);
    case Consume(t, consume) => ConsumeMoves(env, s, t, consume);
    case Finish(t, finish) => FinishMoves(env, s, t, finish);
    case Withdraw(t, withdraw) => WithdrawMoves(env, s, t, withdraw);
    case Callback(t, callback) => CallbackMoves(env, s, t, callback);
    case World(world) => WorldMoves(env, s, world);
  }
}
