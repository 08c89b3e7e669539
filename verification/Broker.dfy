/** The broker as a state machine.

    Each handler is a thread whose program counter and captured locals are one
    `Point`. One step is one block the source runs under a lock, or one store
    transaction; between any two steps of a handler any other handler may run.
    What the broker does not control (clocks, pages, choices of the human, store
    failures) is a parameter of the step. A step that is not enabled changes
    nothing. */
module Broker {
  import opened ByteStrings
  import opened Wrappers
  import opened Domain
  import opened Ledger
  import Audit
  import Grants
  import PageText
  import Policy
  import Store
  import Totp
  import Verifier

  /** `hmac` is HMAC-SHA-1, keyed first. */
  datatype Env = Env(crypto: Audit.Crypto, audience: Bytes, issuerKey: Bytes, hmac: (Bytes, Bytes) -> Totp.Mac)

  const SESSION_TTL: int := 10 * NANOS
  const CONTEXT_TTL: int := 2 * NANOS
  const APPROVAL_TTL: int := 60 * NANOS

  datatype Session = Session(extensionKey: Bytes, instance: Id, assurance: Bytes, active: bool, heartbeat: int)
  {
    predicate IsStale(now: int) {
      active && now - heartbeat >= SESSION_TTL
    }
  }

  datatype Page = Page(
    frame: nat, topOrigin: Origin, frameOrigin: Origin, document: Bytes, epoch: nat, observedAt: int)

  /** What a position was measured from, and when. */
  datatype Measurement = Measurement(session: Session, page: Page, target: Origin, at: int)

  /** What policy, recipe and measurement together allow. `identity` is the name
      the agent used for the credential, `risk` the base risk of the action,
      `generator` what the credential's metadata says about one-time codes. */
  datatype Authorization = Authorization(
    subject: Subject, binding: Binding, measurement: Measurement, identity: Bytes, risk: Policy.RiskLevel,
    generator: Option<Totp.Generator>, presence: bool, consumeTtl: nat, executionTtl: nat)

  /** The thirteen components an approval is bound to; the hash is ideal, so the
      digest is its components (see `ContextDigest`). */
  datatype Digest = Digest(
    agent: Id, credential: Id, action: ActionKind, binding: Binding, recipeHash: Bytes, policyHash: Bytes)

  function DigestOf(a: Authorization): Digest {
    Digest(a.subject.agent, a.subject.credential, a.subject.action, a.binding, a.subject.recipeHash,
           a.subject.policyHash)
  }

  datatype PendingApproval = PendingApproval(
    authorization: Authorization, digest: Digest, requestedAt: int, expiresAt: int)

  /** The evidence a decision was taken on. */
  datatype Verdict = Verdict(
    approval: Id, echoed: Digest, requestedAt: int, at: int, seen: Page, presenceVerified: bool)

  /** A standing grant as the lookup found it. */
  datatype Standing = Standing(id: Id, grant: Grants.Grant)

  datatype Authority = ByPolicy | ByGrant(standing: Standing) | ByApproval(verdict: Verdict)

  datatype Execution = Execution(capability: Id, request: Id, state: ExecutionState)

  datatype PendingOAuth = PendingOAuth(request: Id, session: Id, tab: nat)

  /** A capability as the verifier returned it, with what the consume goes on
      using: the entry's metadata, the context, the one reading of the clock. */
  datatype Use = Use(capability: Capability, generator: Option<Totp.Generator>, context: Binding, now: int)

  datatype Point =
    // action request
    | Admitted(request: Id, agent: Id)
    | Bound(request: Id, agent: Id)
    | Screening(request: Id, agent: Id, at: int)
    | Screened(request: Id, agent: Id, at: int)
    | SessionSeen(request: Id, agent: Id, at: int, session: Id, seen: Session)
    | Measured(request: Id, agent: Id, binding: Binding, measurement: Measurement)
    | Authorized(authorization: Authorization)
    | Granting(authorization: Authorization, standing: Standing)
    | Touched(authorization: Authorization, standing: Standing)
    | Requesting(authorization: Authorization)
    | ApprovalStored(approval: Id, pending: PendingApproval)
    // approval decision
    | Deciding(approval: Id, pending: PendingApproval)
    | Judged(approval: Id, pending: PendingApproval, decision: Store.Decision, verdict: Verdict)
    | DecisionStored(approval: Id, pending: PendingApproval, decision: Store.Decision, verdict: Verdict)
    // mint
    | Minting(authorization: Authorization, authority: Authority)
    | RowMinted(capability: Capability, generator: Option<Totp.Generator>)
    | EntryMinted(capability: Capability)
    // offer
    | Polling(session: Id)
    | Popped(session: Id, offer: Id)
    // consume
    | Keyed(presented: Claims, context: Binding, now: int)
    | Verified(use: Use)
    | RowConsumed(execution: Id, use: Use)
    | EntryConsumed(execution: Id, use: Use)
    | Releasing(execution: Id, use: Use)
    // result
    | Finishing(execution: Id, completed: bool)
    | RowFinished(execution: Id, outcome: ExecutionState)
    // sweeps and revocation
    | SessionsSwept(stale: set<Id>)
    | RowsRevoked(hash: Bytes)
    | PolicyReplaced(hash: Bytes)
    | RowRevoked(revoked: Id)
    | GrantsListed(ids: set<Id>)
    // OAuth callback
    | OAuthFound(oauth: Id)
    | OAuthTaken(oauth: Id, request: Id)
    | OAuthSpent(oauth: Id, request: Id)
    // last act of most handlers: write the request's state and return
    | Reporting(request: Id, state: RequestState, upsert: bool)

  datatype Mint = Mint(authorization: Authorization, authority: Authority, terms: Terms)

  datatype Consumption = Consumption(capability: Id, context: Binding, at: int)

  datatype Offer = Offer(session: Id, capability: Id)

  /** A one-time code that was handed over, and what it was made from. */
  datatype Code = Code(credential: Id, generator: Totp.Generator, seed: Bytes, step: nat, text: PageText.Text)

  /** Where the authority of a request, the right to hand out an offer, or the
      right to release a secret has got to. */
  datatype Place =
    | WithThread(t: nat)
    | InApproval(approval: Id)
    | InCapability(id: Id)
    | InQueue(session: Id)
    | Handed(at: nat)

  /** What has happened so far; never read by a step. `holder`, `approvalOf`
      concern the requests of the current process. */
  datatype History = History(
    measured: set<(Id, Binding, Measurement)>,
    mints: map<Id, Mint>,
    consumed: map<Id, Consumption>,
    offered: seq<Offer>,
    released: seq<Id>,
    codes: map<Id, Code>,
    holder: map<Id, Place>,
    approvalOf: map<Id, Id>,
    offerAt: map<Id, Place>,
    releaseAt: map<Id, Place>)
  {
    function Hold(request: Id, place: Place): History {
      this.(holder := holder[request := place])
    }

    function PutOffer(id: Id, place: Place): History {
      this.(offerAt := offerAt[id := place])
    }
  }

  /** Thread `t` goes on at `p`, or ends. */
  function Continued(threads: map<nat, Point>, t: nat, p: Option<Point>): map<nat, Point> {
    match p
    case None => threads - {t}
    case Some(q) => threads[t := q]
  }

  datatype State = State(
    boot: nat,
    db: Store.Tables,
    log: Log,
    grants: Grants.Rows,
    policyHash: Bytes,
    sessions: map<Id, Session>,
    pages: map<Id, map<nat, Page>>,
    fingerprints: map<Id, Bytes>,
    requestAgents: map<Id, Id>,
    requests: map<Id, RequestState>,
    approvals: map<Id, PendingApproval>,
    capabilities: map<Id, Capability>,
    generators: map<Id, Option<Totp.Generator>>,
    offers: map<Id, seq<Id>>,
    oauth: map<Id, PendingOAuth>,
    executions: map<Id, Execution>,
    threads: map<nat, Point>,
    history: History)
  {
    predicate At(t: nat) {
      t in threads
    }

    function Point(t: nat): Point
      requires At(t)
    {
      threads[t]
    }

    function Goto(t: nat, p: Point): State {
      this.(threads := threads[t := p])
    }

    function Return(t: nat): State {
      this.(threads := Continued(threads, t, None))
    }

    function Continue(t: nat, p: Option<Point>): State {
      this.(threads := Continued(threads, t, p))
    }
  }

  /** One audited store transaction: the tables and the log move together. */
  function Transact(
    env: Env, s: State, tables: Option<Store.Tables>, content: EventContent, stored: bool): (r: (bool, State))
    ensures r.0 ==> stored && tables.Some? && r.1 == s.(db := tables.value, log := r.1.log)
    ensures !r.0 ==> r.1 == s
    ensures r.0 ==> |r.1.log.events| == |s.log.events| + 1
  {
    var (log, done) := Append(env.crypto, s.log, content, stored && tables.Some?);
    if done && tables.Some? then (true, s.(db := tables.value, log := log)) else (false, s)
  }

  function Recorded(env: Env, s: State, content: EventContent, stored: bool): (r: (bool, State))
    ensures r.0 ==> stored && |r.1.log.events| == |s.log.events| + 1
    ensures r.1 == s.(log := r.1.log)
  {
    Transact(env, s, Some(s.db), content, stored)
  }

  // ---------------------------------------------------------- action request

  /** First block of `handle_action_request`: a known request id is answered
      from memory, a new one is claimed, both under the fingerprint lock. */
  function Submit(s: State, t: nat, request: Id, agent: Id, fingerprint: Bytes): (s': State)
    ensures s' == s.(threads := s'.threads, fingerprints := s'.fingerprints,
                    history := s.history.(holder := s'.history.holder))
  {
    if s.At(t) || request in s.fingerprints then s
    else
      s.(fingerprints := s.fingerprints[request := fingerprint], history := s.history.Hold(request, WithThread(t)))
       .Goto(t, Admitted(request, agent))
  }

  function BindAgent(s: State, t: nat): (s': State)
    ensures s' == s.(threads := s'.threads, requestAgents := s'.requestAgents)
  {
    if !s.At(t) || !s.Point(t).Admitted? then s
    else
      var p := s.Point(t);
      s.(requestAgents := s.requestAgents[p.request := p.agent]).Goto(t, Bound(p.request, p.agent))
  }

  /** The handler reads the clock once, before anything else it does. */
  function MarkRequested(s: State, t: nat, now: int): (s': State)
    ensures s' == s.(threads := s'.threads, requests := s'.requests)
  {
    if !s.At(t) || !s.Point(t).Bound? then s
    else
      var p := s.Point(t);
      s.(requests := s.requests[p.request := Requested]).Goto(t, Screening(p.request, p.agent, now))
  }

  function Failing(request: Id): Point {
    Reporting(request, RequestFailed, false)
  }

  function RecordRequested(env: Env, s: State, t: nat, content: EventContent, stored: bool): (s': State)
    ensures s' == s.(threads := s'.threads, log := s'.log)
  {
    if !s.At(t) || !s.Point(t).Screening? then s
    else
      var p := s.Point(t);
      var (done, next) := Recorded(env, s, content, stored);
      next.Goto(t, if done then Screened(p.request, p.agent, p.at) else Failing(p.request))
  }

  predicate Present(s: State, session: Id, now: int) {
    session in s.sessions && s.sessions[session].active && now - s.sessions[session].heartbeat <= SESSION_TTL
  }

  function CheckSession(s: State, t: nat, session: Id): (s': State)
    ensures s' == s.(threads := s'.threads)
  {
    if !s.At(t) || !s.Point(t).Screened? then s
    else
      var p := s.Point(t);
      s.Goto(t, if Present(s, session, p.at) then SessionSeen(p.request, p.agent, p.at, session, s.sessions[session])
                else Failing(p.request))
  }

  function BindingOf(session: Id, extensionKey: Bytes, tab: nat, page: Page): Binding {
    Binding(page.topOrigin, page.frameOrigin, session, extensionKey, tab, page.frame, page.document, page.epoch)
  }

  const NO_PAGE: Page := Page(0, Origin([]), Origin([]), [], 0, 0)

  predicate HasPage(s: State, session: Id, tab: nat) {
    session in s.pages && tab in s.pages[session]
  }

  function PageOf(s: State, session: Id, tab: nat): Page {
    if HasPage(s, session, tab) then s.pages[session][tab] else NO_PAGE
  }

  predicate Usable(s: State, session: Id, tab: nat, target: Origin, now: int) {
    && HasPage(s, session, tab)
    && now - PageOf(s, session, tab).observedAt <= CONTEXT_TTL && PageOf(s, session, tab).topOrigin == target
  }

  function MeasurementOf(s: State, p: Point, tab: nat, target: Origin): Measurement
    requires p.SessionSeen?
  {
    Measurement(p.seen, PageOf(s, p.session, tab), target, p.at)
  }

  /** The measurements after one more attempt, and where it leads. Authority
      comes from the page the browser runtime reported last. */
  function WithMeasurement(s: State, p: Point, tab: nat, target: Origin): set<(Id, Binding, Measurement)>
    requires p.SessionSeen?
  {
    var page := PageOf(s, p.session, tab);
    if Usable(s, p.session, tab, target, p.at)
    then s.history.measured
         + {(p.request, BindingOf(p.session, p.seen.extensionKey, tab, page), MeasurementOf(s, p, tab, target))}
    else s.history.measured
  }

  function AfterMeasuring(s: State, p: Point, tab: nat, target: Origin): (q: Point)
    requires p.SessionSeen?
    ensures (q.Measured? && q.request == p.request) || q.Reporting?
  {
    if Usable(s, p.session, tab, target, p.at)
    then Measured(p.request, p.agent, BindingOf(p.session, p.seen.extensionKey, tab, PageOf(s, p.session, tab)),
                  MeasurementOf(s, p, tab, target))
    else Failing(p.request)
  }

  function Measure(s: State, t: nat, tab: nat, target: Origin): (s': State)
    ensures s' == s.(threads := s'.threads, history := s.history.(measured := s'.history.measured))
  {
    if !s.At(t) || !s.Point(t).SessionSeen? then s
    else
      s.(history := s.history.(measured := WithMeasurement(s, s.Point(t), tab, target)))
       .Goto(t, AfterMeasuring(s, s.Point(t), tab, target))
  }

  datatype PolicyAnswer = Refused | Allowed(presence: bool, consumeTtl: nat, executionTtl: nat)

  /** The credential, as its row reads now, and the recipe that matches. */
  datatype Choice = Choice(
    credential: Id, identity: Bytes, action: ActionKind, recipe: Id, recipeHash: Bytes,
    generator: Option<Totp.Generator>)

  function Evaluate(s: State, t: nat, choice: Choice, answer: PolicyAnswer): (s': State)
    ensures s' == s.(threads := s'.threads)
  {
    if !s.At(t) || !s.Point(t).Measured? then s
    else
      var p := s.Point(t);
      var subject := Subject(
        p.request, p.agent, choice.credential, choice.action, choice.recipe, choice.recipeHash, s.policyHash);
      var risk := Policy.RiskOf(choice.action, false, p.measurement.session.assurance);
      s.Goto(t, match answer
                case Refused => Failing(p.request)
                case Allowed(presence, consumeTtl, executionTtl) =>
                  Authorized(Authorization(subject, p.binding, p.measurement, choice.identity, risk, choice.generator,
                                           presence, consumeTtl, executionTtl)))
  }

  /** What a standing grant has to match, to the letter. */
  function TupleOf(a: Authorization): Grants.Tuple {
    Grants.Tuple(a.subject.agent, a.identity, a.subject.action, a.binding.topOrigin)
  }

  predicate Covering(a: Authorization, grant: Grants.Grant) {
    grant.Covers(TupleOf(a), a.risk, a.measurement.at)
  }

  /** `found` is what the indexed query may answer for this tuple. */
  predicate Finds(rows: Grants.Rows, tuple: Grants.Tuple, found: Option<Id>) {
    match found
    case Some(id) => id in rows && rows[id].IsLive() && rows[id].tuple == tuple
    case None => forall id <- rows :: !(rows[id].IsLive() && rows[id].tuple == tuple)
  }

  /** A grant is looked for only where presence is required and the base risk
      can be granted at all; without one a human is asked. */
  function RouteTo(rows: Grants.Rows, a: Authorization, found: Option<Id>, readable: bool): (q: Point)
    ensures q.Minting? || q.Requesting? || q.Granting? || q.Reporting?
  {
    if !a.presence then Minting(a, ByPolicy)
    else if a.risk.Rank() > Grants.MAX_GRANTABLE.Rank() then Requesting(a)
    else if !readable then Failing(a.subject.request)
    else if found.Some? && found.value in rows && Covering(a, rows[found.value])
    then Granting(a, Standing(found.value, rows[found.value]))
    else Requesting(a)
  }

  function Route(s: State, t: nat, found: Option<Id>, readable: bool): (s': State)
    ensures s' == s.(threads := s'.threads)
  {
    if !s.At(t) || !s.Point(t).Authorized? || !Finds(s.grants, TupleOf(s.Point(t).authorization), found) then s
    else s.Goto(t, RouteTo(s.grants, s.Point(t).authorization, found, readable))
  }

  /** The usage counter; a failure to write it is ignored. */
  function TouchGrant(s: State, t: nat, stored: bool): (s': State)
    ensures s' == s.(threads := s'.threads, grants := s'.grants)
  {
    if !s.At(t) || !s.Point(t).Granting? then s
    else
      var p := s.Point(t);
      s.(grants := if stored then Grants.Touch(s.grants, p.standing.id, p.authorization.measurement.at) else s.grants)
       .Goto(t, Touched(p.authorization, p.standing))
  }

  function RecordGrantUse(env: Env, s: State, t: nat, content: EventContent, stored: bool): (s': State)
    ensures s' == s.(threads := s'.threads, log := s'.log)
  {
    if !s.At(t) || !s.Point(t).Touched? then s
    else
      var p := s.Point(t);
      var (done, next) := Recorded(env, s, content, stored);
      next.Goto(t, if done then Minting(p.authorization, ByGrant(p.standing))
                   else Failing(p.authorization.subject.request))
  }

  function PendingFor(a: Authorization): PendingApproval {
    PendingApproval(a, DigestOf(a), a.measurement.at, a.measurement.at + APPROVAL_TTL)
  }

  function StoreApproval(env: Env, s: State, t: nat, approval: Id, content: EventContent, stored: bool): (s': State)
    ensures s' == s.(threads := s'.threads, log := s'.log, db := s.db.(approvals := s'.db.approvals),
                    history := s.history.(holder := s'.history.holder, approvalOf := s'.history.approvalOf))
  {
    if !s.At(t) || !s.Point(t).Requesting? then s
    else
      var a := s.Point(t).authorization;
      var row := Store.ApprovalRow(a.subject.request, Store.Pending, s.boot);
      var (done, next) := Transact(env, s, Store.InsertApproval(s.db, approval, row), content, stored);
      next.(history := s.history.(
              holder := if done then s.history.holder[a.subject.request := InApproval(approval)] else s.history.holder,
              approvalOf := if done then s.history.approvalOf[a.subject.request := approval]
                            else s.history.approvalOf))
          .Goto(t, if done then ApprovalStored(approval, PendingFor(a)) else Failing(a.subject.request))
  }

  function PublishApproval(s: State, t: nat): (s': State)
    ensures s' == s.(threads := s'.threads, approvals := s'.approvals)
  {
    if !s.At(t) || !s.Point(t).ApprovalStored? then s
    else
      var p := s.Point(t);
      s.(approvals := s.approvals[p.approval := p.pending])
       .Goto(t, Reporting(p.pending.authorization.subject.request, AwaitingApproval, true))
  }

  /** Any refusal before something durable exists. */
  function GiveUp(s: State, t: nat): (s': State)
    ensures s' == s.(threads := s'.threads)
  {
    if s.At(t) && (s.Point(t).Screening? || s.Point(t).Screened? || s.Point(t).SessionSeen? || s.Point(t).Measured?)
    then s.Goto(t, Failing(s.Point(t).request))
    else s
  }

  function Noted(requests: map<Id, RequestState>, p: Point): map<Id, RequestState>
    requires p.Reporting?
  {
    if p.upsert || p.request in requests then requests[p.request := p.state] else requests
  }

  function Report(s: State, t: nat): (s': State)
    ensures s' == s.(threads := s'.threads, requests := s'.requests)
  {
    if !s.At(t) || !s.Point(t).Reporting? then s
    else
      s.(requests := Noted(s.requests, s.Point(t))).Return(t)
  }

  // ------------------------------------------------------- approval decision

  function BeginDecide(s: State, t: nat, approval: Id): (s': State)
    ensures s' == s.(threads := s'.threads)
  {
    if s.At(t) || approval !in s.approvals then s
    else s.Goto(t, Deciding(approval, s.approvals[approval]))
  }

  predicate StillCurrent(binding: Binding, page: Page, now: int) {
    && page.document == binding.document && page.epoch == binding.epoch
    && page.topOrigin == binding.topOrigin && page.frameOrigin == binding.frameOrigin
    && now - page.observedAt <= CONTEXT_TTL
  }

  function Judge(s: State, t: nat, approve: bool, echoed: Digest, presenceVerified: bool, now: int): (s': State)
    ensures s' == s.(threads := s'.threads)
  {
    if !s.At(t) || !s.Point(t).Deciding? then s
    else
      var p := s.Point(t);
      var b := p.pending.authorization.binding;
      var seen := PageOf(s, b.session, b.tab);
      var current := HasPage(s, b.session, b.tab) && StillCurrent(b, seen, now);
      var decision :=
        if now >= p.pending.expiresAt then Store.Decision.Expired
        else if echoed != p.pending.digest || !current then Store.Invalidated
        else if !approve || (p.pending.authorization.presence && !presenceVerified) then Store.Decision.Denied
        else Store.Decision.Approved;
      s.Goto(t, Judged(p.approval, p.pending, decision,
                       Verdict(p.approval, echoed, p.pending.requestedAt, now, seen, presenceVerified)))
  }

  function StoreDecision(env: Env, s: State, t: nat, content: EventContent, stored: bool): (s': State)
    ensures s' == s.(threads := s'.threads, log := s'.log, db := s.db.(approvals := s'.db.approvals),
                    history := s.history.(holder := s'.history.holder))
  {
    if !s.At(t) || !s.Point(t).Judged? then s
    else
      var p := s.Point(t);
      var (done, next) := Transact(env, s, Store.DecideApproval(s.db, p.approval, p.decision), content, stored);
      next.(history := if done then s.history.Hold(p.pending.authorization.subject.request, WithThread(t))
                       else s.history)
          .Continue(t, if done then Some(DecisionStored(p.approval, p.pending, p.decision, p.verdict)) else None)
  }

  function Refusal(decision: Store.Decision): RequestState {
    if decision == Store.Decision.Expired then RequestExpired else RequestState.Denied
  }

  function DropApproval(s: State, t: nat): (s': State)
    ensures s' == s.(threads := s'.threads, approvals := s'.approvals)
  {
    if !s.At(t) || !s.Point(t).DecisionStored? then s
    else
      var p := s.Point(t);
      var a := p.pending.authorization;
      s.(approvals := s.approvals - {p.approval})
       .Goto(t, if p.decision == Store.Decision.Approved then Minting(a, ByApproval(p.verdict))
                else Reporting(a.subject.request, Refusal(p.decision), true))
  }

  // -------------------------------------------------------------------- mint

  const SINGLE_USE: nat := 1

  function NewCapability(a: Authorization, id: Id, now: int): (c: Capability)
    ensures c.terms.id == id && c.terms.subject == a.subject && c.terms.binding == a.binding
    ensures c.terms.maxUses == SINGLE_USE && c.terms.issuedAt == now && c.state == Issued && c.usedCount == 0
  {
    Capability(
      Verifier.MintTerms(id, a.subject, a.binding, now, Verifier.Deadlines(a.consumeTtl, a.executionTtl, None), None,
                         SINGLE_USE),
      Issued, 0)
  }

  function NewRow(a: Authorization, boot: nat): Store.CapabilityRow {
    Store.CapabilityRow(a.subject.request, a.binding.session, a.subject.policyHash, Issued, SINGLE_USE, 0, boot)
  }

  function MintOf(p: Point, id: Id, now: int): Mint
    requires p.Minting?
  {
    Mint(p.authorization, p.authority, NewCapability(p.authorization, id, now).terms)
  }

  function MintRow(env: Env, s: State, t: nat, id: Id, now: int, content: EventContent, stored: bool): (s': State)
    ensures s' == s.(threads := s'.threads, log := s'.log, db := s.db.(capabilities := s'.db.capabilities),
                    history := s.history.(mints := s'.history.mints, holder := s'.history.holder,
                                           offerAt := s'.history.offerAt))
  {
    if !s.At(t) || !s.Point(t).Minting? then s
    else
      var p := s.Point(t);
      var a := p.authorization;
      var row := NewRow(a, s.boot);
      var (done, next) := Transact(env, s, Store.InsertCapability(s.db, id, row), content, stored);
      next.(history := if done then s.history.Hold(a.subject.request, InCapability(id)).PutOffer(id, WithThread(t))
                                     .(mints := s.history.mints[id := MintOf(p, id, now)])
                       else s.history)
          .Continue(t, if done then Some(RowMinted(NewCapability(a, id, now), a.generator))
                       else if p.authority.ByApproval? then None
                       else Some(Failing(a.subject.request)))
  }

  function PublishCapability(s: State, t: nat): (s': State)
    ensures s' == s.(threads := s'.threads, capabilities := s'.capabilities, generators := s'.generators)
  {
    if !s.At(t) || !s.Point(t).RowMinted? then s
    else
      var p := s.Point(t);
      s.(capabilities := s.capabilities[p.capability.terms.id := p.capability],
         generators := s.generators[p.capability.terms.id := p.generator])
       .Goto(t, EntryMinted(p.capability))
  }

  function QueueOf(s: State, session: Id): seq<Id> {
    if session in s.offers then s.offers[session] else []
  }

  function QueueOffer(s: State, t: nat): (s': State)
    ensures s' == s.(threads := s'.threads, offers := s'.offers,
                    history := s.history.(offerAt := s'.history.offerAt))
  {
    if !s.At(t) || !s.Point(t).EntryMinted? then s
    else
      var c := s.Point(t).capability;
      var session := c.terms.binding.session;
      s.(offers := s.offers[session := QueueOf(s, session) + [c.terms.id]],
         history := s.history.PutOffer(c.terms.id, InQueue(session)))
       .Goto(t, Reporting(c.terms.subject.request, CapabilityIssued, true))
  }

  // ------------------------------------------------------------------- offer

  function BeginNext(s: State, t: nat, session: Id, now: int): (s': State)
    ensures s' == s.(threads := s'.threads)
  {
    if s.At(t) || session !in s.sessions || !s.sessions[session].active
      || now - s.sessions[session].heartbeat >= SESSION_TTL
    then s
    else s.Goto(t, Polling(session))
  }

  function PopOffer(s: State, t: nat): (s': State)
    ensures s' == s.(threads := s'.threads, offers := s'.offers,
                    history := s.history.(offerAt := s'.history.offerAt))
  {
    if !s.At(t) || !s.Point(t).Polling? then s
    else
      var session := s.Point(t).session;
      var queue := QueueOf(s, session);
      s.(offers := s.offers[session := if queue == [] then [] else queue[1..]],
         history := if queue == [] then s.history else s.history.PutOffer(queue[0], WithThread(t)))
       .Continue(t, if queue == [] then None else Some(Popped(session, queue[0])))
  }

  predicate Offerable(s: State, id: Id, now: int) {
    id in s.capabilities && !s.capabilities[id].state.IsTerminal() && now < s.capabilities[id].terms.consumeDeadline
  }

  function PrepareOAuth(oauth: map<Id, PendingOAuth>, id: Id, terms: Terms): map<Id, PendingOAuth> {
    if terms.subject.action == OAuthAuthorize
    then oauth[id := PendingOAuth(terms.subject.request, terms.binding.session, terms.binding.tab)]
    else oauth
  }

  /** `recipeUsable`: the bound recipe is registered and, for OAuth, valid. */
  function InspectOffer(s: State, t: nat, now: int, recipeUsable: bool): (s': State)
    ensures s' == s.(threads := s'.threads, oauth := s'.oauth,
                    history := s.history.(offered := s'.history.offered, offerAt := s'.history.offerAt))
  {
    if !s.At(t) || !s.Point(t).Popped? then s
    else
      var p := s.Point(t);
      var usable := Offerable(s, p.offer, now);
      var hand := usable && recipeUsable;
      s.(oauth := if hand then PrepareOAuth(s.oauth, p.offer, s.capabilities[p.offer].terms) else s.oauth,
         history := s.history.(
           offerAt := if hand then s.history.offerAt[p.offer := Handed(|s.history.offered|)] else s.history.offerAt,
           offered := s.history.offered + (if hand then [Offer(p.session, p.offer)] else [])))
       .Continue(t, if usable then None else Some(Polling(p.session)))
  }

  // ----------------------------------------------------------------- consume

  /** The executor reports its context; the extension key is the session's. */
  function BeginConsume(s: State, t: nat, presented: Claims, context: Binding, proofOk: bool, now: int): (s': State)
    ensures s' == s.(threads := s'.threads)
  {
    if s.At(t) || context.session !in s.sessions || !proofOk then s
    else s.Goto(t, Keyed(presented, context.(extensionKey := s.sessions[context.session].extensionKey), now))
  }

  /** The token is the one minted for this entry. */
  predicate OwnToken(env: Env, s: State, presented: Claims) {
    && presented.jti in s.capabilities
    && presented == Verifier.MintClaims(s.capabilities[presented.jti].terms, env.audience, env.issuerKey)
  }

  function GeneratorOf(s: State, id: Id): Option<Totp.Generator> {
    if id in s.generators then s.generators[id] else None
  }

  /** A consume for one-time codes needs metadata the broker accepts. */
  predicate CodesReady(action: ActionKind, generator: Option<Totp.Generator>) {
    action == AuthenticateTotp ==> generator.Some? && generator.value.Supported()
  }

  function Examine(env: Env, s: State, presented: Claims, context: Binding, now: int): Option<Point> {
    if !OwnToken(env, s, presented) then None
    else
      var entry := s.capabilities[presented.jti];
      var generator := GeneratorOf(s, presented.jti);
      var (r, copy) := Verifier.Verify(entry, Some(presented), env.audience, context, now);
      if !CodesReady(entry.terms.subject.action, generator) || r.Failure? then None
      else Some(Verified(Use(copy, generator, context, now)))
  }

  /** Snapshot the entry and run the verifier on the copy. */
  function Snapshot(env: Env, s: State, t: nat): (s': State)
    ensures s' == s.(threads := s'.threads)
  {
    if !s.At(t) || !s.Point(t).Keyed? then s
    else
      var p := s.Point(t);
      s.Continue(t, Examine(env, s, p.presented, p.context, p.now))
  }

  /** The time as `u64` sees it. */
  function Unix(now: int): nat {
    Seconds(now) % TWO_64
  }

  predicate MakesCode(use: Use) {
    use.capability.terms.subject.action == AuthenticateTotp && use.generator.Some? && use.generator.value.Supported()
  }

  /** The time step a consume claims: that of its reading of the clock. */
  function TotpClaim(use: Use): Option<Store.TotpStep> {
    if MakesCode(use)
    then Some((use.capability.terms.subject.credential, Totp.TimeStep(use.generator.value, Unix(use.now)).0))
    else None
  }

  function ConsumptionOf(use: Use): Consumption {
    Consumption(use.capability.terms.id, use.context, use.now)
  }

  function ConsumeRow(env: Env, s: State, t: nat, execution: Id, content: EventContent, stored: bool): (s': State)
    ensures s' == s.(threads := s'.threads, log := s'.log,
                    db := s.db.(capabilities := s'.db.capabilities, executions := s'.db.executions, totp := s'.db.totp),
                    history := s.history.(consumed := s'.history.consumed, releaseAt := s'.history.releaseAt))
  {
    if !s.At(t) || !s.Point(t).Verified? then s
    else
      var use := s.Point(t).use;
      var id := use.capability.terms.id;
      var (done, next) :=
        Transact(env, s, Store.ConsumeWithExecution(s.db, id, execution, TotpClaim(use)), content, stored);
      next.(history := if done
                       then s.history.(consumed := s.history.consumed[execution := ConsumptionOf(use)],
                                       releaseAt := s.history.releaseAt[execution := WithThread(t)])
                       else s.history)
          .Continue(t, if done then Some(RowConsumed(execution, use)) else None)
  }

  function WriteBack(s: State, t: nat): (s': State)
    ensures s' == s.(threads := s'.threads, capabilities := s'.capabilities)
  {
    if !s.At(t) || !s.Point(t).RowConsumed? then s
    else
      var p := s.Point(t);
      var id := p.use.capability.terms.id;
      s.(capabilities := if id in s.capabilities then s.capabilities[id := p.use.capability] else s.capabilities)
       .Goto(t, EntryConsumed(p.execution, p.use))
  }

  function TrackExecution(s: State, t: nat): (s': State)
    ensures s' == s.(threads := s'.threads, executions := s'.executions)
  {
    if !s.At(t) || !s.Point(t).EntryConsumed? then s
    else
      var p := s.Point(t);
      var terms := p.use.capability.terms;
      s.(executions := s.executions[p.execution := Execution(terms.id, terms.subject.request, Consuming)])
       .Goto(t, Releasing(p.execution, p.use))
  }

  /** A one-time code for the instant the consume was checked at. */
  function MakeCode(env: Env, use: Use, seed: Bytes): Option<Code> {
    if !MakesCode(use) then None
    else
      match Totp.Generate(use.generator.value, env.hmac, seed, Unix(use.now))
      case Failure(_) => None
      case Success((text, step)) =>
        Some(Code(use.capability.terms.subject.credential, use.generator.value, seed, step, text))
  }

  /** What is to be handed over is there. `secret` is what the provider returned,
      `None` also standing for a recipe that is gone or asks for no field. */
  predicate FieldsReady(env: Env, use: Use, secret: Option<Bytes>) {
    && secret.Some?
    && match use.capability.terms.subject.action
       case OAuthAuthorize => false
       case AuthenticateTotp => MakeCode(env, use, secret.value).Some?
       case _ => true
  }

  function WithCode(env: Env, codes: map<Id, Code>, execution: Id, use: Use, secret: Option<Bytes>): map<Id, Code> {
    if secret.Some? && MakeCode(env, use, secret.value).Some?
    then codes[execution := MakeCode(env, use, secret.value).value]
    else codes
  }

  /** Retrieve the secret, record the access, hand the fields to the executor. */
  function Release(env: Env, s: State, t: nat, secret: Option<Bytes>, content: EventContent, stored: bool): (s': State)
    ensures s' == s.(threads := s'.threads, log := s'.log,
                    history := s.history.(released := s'.history.released, codes := s'.history.codes,
                                           releaseAt := s'.history.releaseAt))
  {
    if !s.At(t) || !s.Point(t).Releasing? then s
    else
      var p := s.Point(t);
      var (done, next) := Recorded(env, s, content, stored && FieldsReady(env, p.use, secret));
      next.(history := if done
                       then s.history.(released := s.history.released + [p.execution],
                                       codes := WithCode(env, s.history.codes, p.execution, p.use, secret),
                                       releaseAt := s.history.releaseAt[p.execution := Handed(|s.history.released|)])
                       else s.history)
          .Return(t)
  }

  // ------------------------------------------------------------------ result

  function BeginResult(s: State, t: nat, execution: Id, completed: bool): (s': State)
    ensures s' == s.(threads := s'.threads)
  {
    if s.At(t) || execution !in s.executions then s
    else s.Goto(t, Finishing(execution, completed))
  }

  function FinishRow(env: Env, s: State, t: nat, content: EventContent, stored: bool): (s': State)
    ensures s' == s.(threads := s'.threads, log := s'.log, db := s.db.(executions := s'.db.executions))
  {
    if !s.At(t) || !s.Point(t).Finishing? then s
    else
      var p := s.Point(t);
      var outcome := if p.completed then Completed else Failed;
      var (done, next) := Transact(env, s, Store.FinishExecution(s.db, p.execution, outcome), content, stored);
      next.Continue(t, if done then Some(RowFinished(p.execution, outcome))
                       else if p.completed && CreateEvent(env.crypto, s.log, content).Some?
                       then Some(RowFinished(p.execution, CompletedEvidenceLost))
                       else None)
  }

  function RequestOutcome(outcome: ExecutionState): RequestState {
    match outcome
    case Completed => RequestCompleted
    case CompletedEvidenceLost => RequestEvidenceLost
    case _ => RequestFailed
  }

  function Concluded(executions: map<Id, Execution>, execution: Id, outcome: ExecutionState): map<Id, Execution> {
    if execution in executions then executions[execution := executions[execution].(state := outcome)] else executions
  }

  function AfterResult(executions: map<Id, Execution>, execution: Id, outcome: ExecutionState): (p: Option<Point>)
    ensures p.Some? ==> p.value.Reporting?
  {
    if execution !in executions then None
    else Some(Reporting(executions[execution].request, RequestOutcome(outcome), false))
  }

  function WriteExecution(s: State, t: nat): (s': State)
    ensures s' == s.(threads := s'.threads, executions := s'.executions)
  {
    if !s.At(t) || !s.Point(t).RowFinished? then s
    else
      var p := s.Point(t);
      s.(executions := Concluded(s.executions, p.execution, p.outcome))
       .Continue(t, AfterResult(s.executions, p.execution, p.outcome))
  }

  // ----------------------------------------- cancel, stale, reload, revoke

  function RevokedUnlessTerminal(c: Capability): Capability {
    if c.state.IsTerminal() then c else c.(state := Revoked)
  }

  /** The entries in `ids` revoked, unless they have ended already. */
  function RevokedAmong(entries: map<Id, Capability>, ids: set<Id>): map<Id, Capability> {
    map id | id in entries :: if id in ids then RevokedUnlessTerminal(entries[id]) else entries[id]
  }

  function OfRequest(entries: map<Id, Capability>, request: Id): set<Id> {
    set id | id in entries && entries[id].terms.subject.request == request
  }

  function OfSessions(entries: map<Id, Capability>, sessions: set<Id>): set<Id> {
    set id | id in entries && entries[id].terms.binding.session in sessions
  }

  function OfOtherPolicies(entries: map<Id, Capability>, hash: Bytes): set<Id> {
    set id | id in entries && entries[id].terms.subject.policyHash != hash
  }

  function OfAgent(entries: map<Id, Capability>, agent: Id): set<Id> {
    set id | id in entries && entries[id].terms.subject.agent == agent
  }

  /** By its own agent, while it is neither over nor executing. */
  predicate Cancellable(s: State, agent: Id, request: Id) {
    && request in s.requestAgents && s.requestAgents[request] == agent && request in s.requests
    && !s.requests[request].IsTerminal() && s.requests[request] != Executing
  }

  /** One block: the request lock is held across the capability loop. */
  function Cancel(s: State, agent: Id, request: Id): (s': State)
    ensures s' == s.(requests := s'.requests, capabilities := s'.capabilities)
  {
    if !Cancellable(s, agent, request) then s
    else
      s.(requests := s.requests[request := Cancelled],
         capabilities := RevokedAmong(s.capabilities, OfRequest(s.capabilities, request)))
  }

  function StaleSessions(sessions: map<Id, Session>, now: int): set<Id> {
    set id | id in sessions && sessions[id].IsStale(now)
  }

  function Closed(sessions: map<Id, Session>, stale: set<Id>): map<Id, Session> {
    map id | id in sessions :: if id in stale then sessions[id].(active := false) else sessions[id]
  }

  function SweepSessions(s: State, t: nat, now: int): (s': State)
    ensures s' == s.(threads := s'.threads, sessions := s'.sessions)
  {
    var stale := StaleSessions(s.sessions, now);
    if s.At(t) || stale == {} then s
    else s.(sessions := Closed(s.sessions, stale)).Goto(t, SessionsSwept(stale))
  }

  function RevokeSessionEntries(s: State, t: nat): (s': State)
    ensures s' == s.(threads := s'.threads, capabilities := s'.capabilities)
  {
    if !s.At(t) || !s.Point(t).SessionsSwept? then s
    else
      var stale := s.Point(t).stale;
      s.(capabilities := RevokedAmong(s.capabilities, OfSessions(s.capabilities, stale)))
       .Return(t)
  }

  /** A managed browser is shut down: its sessions end. */
  function CloseBrowser(s: State, instance: Id): (s': State)
    ensures s' == s.(sessions := s'.sessions)
  {
    s.(sessions := Closed(s.sessions, set id | id in s.sessions && s.sessions[id].instance == instance))
  }

  /** The last block of `ui_disable_agent`: in memory only. */
  function DisableAgent(s: State, agent: Id): (s': State)
    ensures s' == s.(capabilities := s'.capabilities)
  {
    s.(capabilities := RevokedAmong(s.capabilities, OfAgent(s.capabilities, agent)))
  }

  function ReloadRows(env: Env, s: State, t: nat, hash: Bytes, content: EventContent, stored: bool): (s': State)
    ensures s' == s.(threads := s'.threads, log := s'.log, db := s.db.(capabilities := s'.db.capabilities))
  {
    if s.At(t) then s
    else
      var (done, next) := Transact(env, s, Some(Store.RevokeOtherPolicies(s.db, hash)), content, stored);
      next.Continue(t, if done then Some(RowsRevoked(hash)) else None)
  }

  function ReplacePolicy(s: State, t: nat): (s': State)
    ensures s' == s.(threads := s'.threads, policyHash := s'.policyHash)
  {
    if !s.At(t) || !s.Point(t).RowsRevoked? then s
    else s.(policyHash := s.Point(t).hash).Goto(t, PolicyReplaced(s.Point(t).hash))
  }

  function RevokePolicyEntries(s: State, t: nat): (s': State)
    ensures s' == s.(threads := s'.threads, capabilities := s'.capabilities)
  {
    if !s.At(t) || !s.Point(t).PolicyReplaced? then s
    else
      var hash := s.Point(t).hash;
      s.(capabilities := RevokedAmong(s.capabilities, OfOtherPolicies(s.capabilities, hash)))
       .Return(t)
  }

  function RevokeRow(env: Env, s: State, t: nat, id: Id, content: EventContent, stored: bool): (s': State)
    ensures s' == s.(threads := s'.threads, log := s'.log, db := s.db.(capabilities := s'.db.capabilities))
  {
    if s.At(t) then s
    else
      var (done, next) := Transact(env, s, Store.RevokeCapability(s.db, id), content, stored);
      next.Continue(t, if done then Some(RowRevoked(id)) else None)
  }

  function RevokeEntry(s: State, t: nat): (s': State)
    ensures s' == s.(threads := s'.threads, capabilities := s'.capabilities)
  {
    if !s.At(t) || !s.Point(t).RowRevoked? then s
    else
      var id := s.Point(t).revoked;
      s.(capabilities := if id in s.capabilities then s.capabilities[id := s.capabilities[id].(state := Revoked)]
                         else s.capabilities)
       .Return(t)
  }

  /** Grants are listed and revoked under two locks, row by row; `reached` are
      the rows got to before a write fails. */
  function ListGrants(s: State, t: nat, selector: Grants.Selector): (s': State)
    ensures s' == s.(threads := s'.threads)
  {
    if s.At(t) then s else s.Goto(t, GrantsListed(Grants.TargetedIds(selector, s.grants)))
  }

  function RevokeGrants(s: State, t: nat, reached: set<Id>, at: int): (s': State)
    ensures s' == s.(threads := s'.threads, grants := s'.grants)
  {
    if !s.At(t) || !s.Point(t).GrantsListed? then s
    else s.(grants := Grants.RevokeIds(s.grants, s.Point(t).ids * reached, at)).Return(t)
  }

  // ---------------------------------------------------------- OAuth callback

  function BeginOAuth(env: Env, s: State, t: nat, presented: Claims): (s': State)
    ensures s' == s.(threads := s'.threads)
  {
    if s.At(t) || !OwnToken(env, s, presented) then s else s.Goto(t, OAuthFound(presented.jti))
  }

  function AfterTake(oauth: map<Id, PendingOAuth>, id: Id, session: Id, tab: nat): (p: Option<Point>)
    ensures p.Some? ==> p.value.OAuthTaken? || p.value.Reporting?
  {
    if id !in oauth then None
    else if oauth[id].session == session && oauth[id].tab == tab then Some(OAuthTaken(id, oauth[id].request))
    else Some(Reporting(oauth[id].request, RequestFailed, true))
  }

  function Forget(oauth: map<Id, PendingOAuth>, id: Id): map<Id, PendingOAuth> {
    oauth - {id}
  }

  function TakeOAuth(s: State, t: nat, session: Id, tab: nat): (s': State)
    ensures s' == s.(threads := s'.threads, oauth := s'.oauth)
  {
    if !s.At(t) || !s.Point(t).OAuthFound? then s
    else
      var id := s.Point(t).oauth;
      s.(oauth := Forget(s.oauth, id))
       .Continue(t, AfterTake(s.oauth, id, session, tab))
  }

  function SpendOAuthRow(s: State, t: nat, stored: bool): (s': State)
    ensures s' == s.(threads := s'.threads, db := s.db.(capabilities := s'.db.capabilities))
  {
    if !s.At(t) || !s.Point(t).OAuthTaken? then s
    else
      var p := s.Point(t);
      var tables := Store.ConsumeOAuth(s.db, p.oauth);
      var done := tables.Some? && stored;
      s.(db := if done then tables.value else s.db)
       .Goto(t, if done then OAuthSpent(p.oauth, p.request) else Reporting(p.request, RequestFailed, true))
  }

  function WithSpent(entries: map<Id, Capability>, id: Id): map<Id, Capability> {
    if id in entries then entries[id := entries[id].(state := Consumed, usedCount := entries[id].usedCount + 1)]
    else entries
  }

  /** `exchanged`: the callback, the code exchange and the token store succeed. */
  function SpendOAuthEntry(s: State, t: nat, exchanged: bool): (s': State)
    ensures s' == s.(threads := s'.threads, capabilities := s'.capabilities)
  {
    if !s.At(t) || !s.Point(t).OAuthSpent? then s
    else
      var p := s.Point(t);
      s.(capabilities := WithSpent(s.capabilities, p.oauth))
       .Goto(t, Reporting(p.request, if exchanged then RequestCompleted else RequestFailed, true))
  }

  // ------------------------------------------------------------- environment

  function RegisterSession(s: State, id: Id, extensionKey: Bytes, instance: Id, now: int): (s': State)
    ensures s' == s.(sessions := s'.sessions)
  {
    if id in s.sessions then s
    else s.(sessions := s.sessions[id := Session(extensionKey, instance, Ascii("managed"), true, now)])
  }

  function Heartbeat(s: State, id: Id, now: int): (s': State)
    ensures s' == s.(sessions := s'.sessions)
  {
    if id !in s.sessions then s
    else s.(sessions := s.sessions[id := s.sessions[id].(active := true, heartbeat := now)])
  }

  function ReportPage(s: State, session: Id, tab: nat, page: Page): (s': State)
    ensures s' == s.(pages := s'.pages)
  {
    var tabs := if session in s.pages then s.pages[session] else map[];
    s.(pages := s.pages[session := tabs[tab := page]])
  }

  function RecordOther(env: Env, s: State, content: EventContent, stored: bool): (s': State)
    ensures s' == s.(log := s'.log)
  {
    Recorded(env, s, content, stored).1
  }

  function Granted(env: Env, s: State, rows: Option<Grants.Rows>, content: EventContent, stored: bool): (s': State)
    ensures s' == s.(log := s'.log, grants := s'.grants)
  {
    var (log, done) := Append(env.crypto, s.log, content, stored && rows.Some?);
    s.(grants := if done && rows.Some? then rows.value else s.grants, log := log)
  }

  /** A new grant replaces the live one of its tuple; with its record or not at
      all. */
  function InsertGrant(env: Env, s: State, id: Id, grant: Grants.Grant, content: EventContent, stored: bool)
    : (s': State)
    ensures s' == s.(log := s'.log, grants := s'.grants)
  {
    var unused := grant.(revokedAt := None, lastUsedAt := None, useCount := 0);
    Granted(env, s, Grants.Insert(s.grants, id, unused), content, stored)
  }

  /** The second half of `write_audit_checkpoint`; the first is a record. */
  function WriteCheckpoint(env: Env, s: State, createdAt: Bytes, stored: bool): (s': State)
    ensures s' == s.(log := s'.log)
  {
    s.(log := Ledger.Apply(env.crypto, s.log, Checkpoint(createdAt, stored)))
  }

  /** The process ends at any point and a new one opens the same store. */
  function Restart(s: State, signer: Signer, policyHash: Bytes, hashRead: bool): State {
    State(s.boot + 1, Store.Recover(s.db), Reopen(s.log, signer, hashRead), s.grants, policyHash,
          map[], map[], map[], map[], map[], map[], map[], map[], map[], map[], map[], map[],
          s.history.(holder := map[], approvalOf := map[]))
  }

  // ------------------------------------------------------------------- steps

  /** One step of one handler, by thread; the world outside has its own. */
  datatype Step =
    | Ask(t: nat, ask: AskStep)
    | Decide(t: nat, decide: DecideStep)
    | Issue(t: nat, issue: IssueStep)
    | Poll(t: nat, poll: PollStep)
    | Consume(t: nat, consume: ConsumeStep)
    | Finish(t: nat, finish: FinishStep)
    | Withdraw(t: nat, withdraw: WithdrawStep)
    | Callback(t: nat, callback: CallbackStep)
    | World(world: WorldStep)

  datatype AskStep =
    | DoSubmit(request: Id, agent: Id, fingerprint: Bytes)
    | DoBindAgent
    | DoMarkRequested(now: int)
    | DoRecordRequested(content: EventContent, stored: bool)
    | DoCheckSession(session: Id)
    | DoMeasure(tab: nat, target: Origin)
    | DoEvaluate(choice: Choice, answer: PolicyAnswer)
    | DoRoute(found: Option<Id>, readable: bool)
    | DoTouchGrant(stored: bool)
    | DoRecordGrantUse(content: EventContent, stored: bool)
    | DoStoreApproval(approval: Id, content: EventContent, stored: bool)
    | DoPublishApproval
    | DoGiveUp
    | DoReport

  datatype DecideStep =
    | DoBeginDecide(approval: Id)
    | DoJudge(approve: bool, echoed: Digest, presenceVerified: bool, now: int)
    | DoStoreDecision(content: EventContent, stored: bool)
    | DoDropApproval

  datatype IssueStep =
    | DoMintRow(id: Id, now: int, content: EventContent, stored: bool)
    | DoPublishCapability
    | DoQueueOffer

  datatype PollStep =
    | DoBeginNext(session: Id, now: int)
    | DoPopOffer
    | DoInspectOffer(now: int, recipeUsable: bool)

  datatype ConsumeStep =
    | DoBeginConsume(presented: Claims, context: Binding, proofOk: bool, now: int)
    | DoSnapshot
    | DoConsumeRow(execution: Id, content: EventContent, stored: bool)
    | DoWriteBack
    | DoTrackExecution
    | DoRelease(secret: Option<Bytes>, content: EventContent, stored: bool)

  datatype FinishStep =
    | DoBeginResult(execution: Id, completed: bool)
    | DoFinishRow(content: EventContent, stored: bool)
    | DoWriteExecution

  datatype WithdrawStep =
    | DoCancel(agent: Id, request: Id)
    | DoSweepSessions(now: int)
    | DoRevokeSessionEntries
    | DoReloadRows(hash: Bytes, content: EventContent, stored: bool)
    | DoReplacePolicy
    | DoRevokePolicyEntries
    | DoRevokeRow(id: Id, content: EventContent, stored: bool)
    | DoRevokeEntry
    | DoCloseBrowser(instance: Id)
    | DoDisableAgent(agent: Id)
    | DoListGrants(selector: Grants.Selector)
    | DoRevokeGrants(reached: set<Id>, at: int)

  datatype CallbackStep =
    | DoBeginOAuth(presented: Claims)
    | DoTakeOAuth(session: Id, tab: nat)
    | DoSpendOAuthRow(stored: bool)
    | DoSpendOAuthEntry(exchanged: bool)

  datatype WorldStep =
    | DoRegisterSession(session: Id, extensionKey: Bytes, instance: Id, now: int)
    | DoHeartbeat(session: Id, now: int)
    | DoReportPage(session: Id, tab: nat, page: Page)
    | DoRecordOther(content: EventContent, stored: bool)
    | DoWriteCheckpoint(createdAt: Bytes, stored: bool)
    | DoInsertGrant(id: Id, grant: Grants.Grant, content: EventContent, stored: bool)
    | DoRestart(signer: Signer, policyHash: Bytes, hashRead: bool)

  function AskNext(env: Env, s: State, t: nat, step: AskStep): State {
    match step
    case DoSubmit(request, agent, fingerprint) => Submit(s, t, request, agent, fingerprint)
    case DoBindAgent => BindAgent(s, t)
    case DoMarkRequested(now) => MarkRequested(s, t, now)
    case DoRecordRequested(content, stored) => RecordRequested(env, s, t, content, stored)
    case DoCheckSession(session) => CheckSession(s, t, session)
    case DoMeasure(tab, target) => Measure(s, t, tab, target)
    case DoEvaluate(choice, answer) => Evaluate(s, t, choice, answer)
    case DoRoute(found, readable) => Route(s, t, found, readable)
    case DoTouchGrant(stored) => TouchGrant(s, t, stored)
    case DoRecordGrantUse(content, stored) => RecordGrantUse(env, s, t, content, stored)
    case DoStoreApproval(approval, content, stored) => StoreApproval(env, s, t, approval, content, stored)
    case DoPublishApproval => PublishApproval(s, t)
    case DoGiveUp => GiveUp(s, t)
    case DoReport => Report(s, t)
  }

  function DecideNext(env: Env, s: State, t: nat, step: DecideStep): State {
    match step
    case DoBeginDecide(approval) => BeginDecide(s, t, approval)
    case DoJudge(approve, echoed, presenceVerified, now) => Judge(s, t, approve, echoed, presenceVerified, now)
    case DoStoreDecision(content, stored) => StoreDecision(env, s, t, content, stored)
    case DoDropApproval => DropApproval(s, t)
  }

  function IssueNext(env: Env, s: State, t: nat, step: IssueStep): State {
    match step
    case DoMintRow(id, now, content, stored) => MintRow(env, s, t, id, now, content, stored)
    case DoPublishCapability => PublishCapability(s, t)
    case DoQueueOffer => QueueOffer(s, t)
  }

  function PollNext(env: Env, s: State, t: nat, step: PollStep): State {
    match step
    case DoBeginNext(session, now) => BeginNext(s, t, session, now)
    case DoPopOffer => PopOffer(s, t)
    case DoInspectOffer(now, recipeUsable) => InspectOffer(s, t, now, recipeUsable)
  }

  function ConsumeNext(env: Env, s: State, t: nat, step: ConsumeStep): State {
    match step
    case DoBeginConsume(presented, context, proofOk, now) => BeginConsume(s, t, presented, context, proofOk, now)
    case DoSnapshot => Snapshot(env, s, t)
    case DoConsumeRow(execution, content, stored) => ConsumeRow(env, s, t, execution, content, stored)
    case DoWriteBack => WriteBack(s, t)
    case DoTrackExecution => TrackExecution(s, t)
    case DoRelease(secret, content, stored) => Release(env, s, t, secret, content, stored)
  }

  function FinishNext(env: Env, s: State, t: nat, step: FinishStep): State {
    match step
    case DoBeginResult(execution, completed) => BeginResult(s, t, execution, completed)
    case DoFinishRow(content, stored) => FinishRow(env, s, t, content, stored)
    case DoWriteExecution => WriteExecution(s, t)
  }

  function WithdrawNext(env: Env, s: State, t: nat, step: WithdrawStep): State {
    match step
    case DoCancel(agent, request) => Cancel(s, agent, request)
    case DoSweepSessions(now) => SweepSessions(s, t, now)
    case DoRevokeSessionEntries => RevokeSessionEntries(s, t)
    case DoReloadRows(hash, content, stored) => ReloadRows(env, s, t, hash, content, stored)
    case DoReplacePolicy => ReplacePolicy(s, t)
    case DoRevokePolicyEntries => RevokePolicyEntries(s, t)
    case DoRevokeRow(id, content, stored) => RevokeRow(env, s, t, id, content, stored)
    case DoRevokeEntry => RevokeEntry(s, t)
    case DoCloseBrowser(instance) => CloseBrowser(s, instance)
    case DoDisableAgent(agent) => DisableAgent(s, agent)
    case DoListGrants(selector) => ListGrants(s, t, selector)
    case DoRevokeGrants(reached, at) => RevokeGrants(s, t, reached, at)
  }

  function CallbackNext(env: Env, s: State, t: nat, step: CallbackStep): State {
    match step
    case DoBeginOAuth(presented) => BeginOAuth(env, s, t, presented)
    case DoTakeOAuth(session, tab) => TakeOAuth(s, t, session, tab)
    case DoSpendOAuthRow(stored) => SpendOAuthRow(s, t, stored)
    case DoSpendOAuthEntry(exchanged) => SpendOAuthEntry(s, t, exchanged)
  }

  function WorldNext(env: Env, s: State, step: WorldStep): State {
    match step
    case DoRegisterSession(session, extensionKey, instance, now) =>
      RegisterSession(s, session, extensionKey, instance, now)
    case DoHeartbeat(session, now) => Heartbeat(s, session, now)
    case DoReportPage(session, tab, page) => ReportPage(s, session, tab, page)
    case DoRecordOther(content, stored) => RecordOther(env, s, content, stored)
    case DoWriteCheckpoint(createdAt, stored) => WriteCheckpoint(env, s, createdAt, stored)
    case DoInsertGrant(id, grant, content, stored) => InsertGrant(env, s, id, grant, content, stored)
    case DoRestart(signer, policyHash, hashRead) => Restart(s, signer, policyHash, hashRead)
  }

  function Next(env: Env, s: State, step: Step): State {
    match step
    case Ask(t, ask) => AskNext(env, s, t, ask)
    case Decide(t, decide) => DecideNext(env, s, t, decide)
    case Issue(t, issue) => IssueNext(env, s, t, issue)
    case Poll(t, poll) => PollNext(env, s, t, poll)
    case Consume(t, consume) => ConsumeNext(env, s, t, consume)
    case Finish(t, finish) => FinishNext(env, s, t, finish)
    case Withdraw(t, withdraw) => WithdrawNext(env, s, t, withdraw)
    case Callback(t, callback) => CallbackNext(env, s, t, callback)
    case World(world) => WorldNext(env, s, world)
  }

  function Run(env: Env, s: State, steps: seq<Step>): State
    decreases |steps|
  {
    if steps == [] then s else Run(env, Next(env, s, steps[0]), steps[1..])
  }

  /** An empty store opened for the first time. */
  function Initial(signer: Signer, policyHash: Bytes): State {
    State(0, Store.Tables(map[], map[], map[], map[]), Log(signer, 1, Audit.Genesis(), false, [], []), map[],
          policyHash,
          map[], map[], map[], map[], map[], map[], map[], map[], map[], map[], map[], map[],
          History({}, map[], map[], [], [], map[], map[], map[], map[], map[]))
  }
}
