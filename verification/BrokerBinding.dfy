/** Context binding end to end: whatever is consumed is consumed in the position
    that was measured when the request was authorised, under an authority that
    had seen that position. */
module BrokerBinding {
  import opened ByteStrings
  import opened Wrappers
  import opened Domain
  import opened Broker
  import opened BrokerFrame
  import Audit
  import BrokerDurable
  import BrokerOffers
  import Grants
  import Ledger
  import Store

  type Measurements = set<(Id, Binding, Measurement)>

  /** A position was measured on a page reported in the last two seconds, whose
      origin is the one asked for, in a session that was active and heard from in
      the last ten. */
  predicate MeasurementOk(b: Binding, m: Measurement) {
    && m.session.active && m.at - m.session.heartbeat <= SESSION_TTL
    && b == BindingOf(b.session, m.session.extensionKey, b.tab, m.page)
    && m.at - m.page.observedAt <= CONTEXT_TTL && m.page.topOrigin == m.target
  }

  ghost predicate MeasurementsOk(measured: Measurements) {
    forall k <- measured :: MeasurementOk(k.1, k.2)
  }

  /** This very measurement was taken for this request. */
  predicate MeasuredFor(measured: Measurements, a: Authorization) {
    (a.subject.request, a.binding, a.measurement) in measured
  }

  predicate PendingOk(measured: Measurements, pending: PendingApproval) {
    MeasuredFor(measured, pending.authorization) && pending == PendingFor(pending.authorization)
  }

  /** Enough authority: policy asked for no presence, a standing grant was live
      when it was looked up and covers agent, credential, action, origin and base
      risk, or a human approved this very digest in time while the page was still
      the one that had been measured. */
  predicate Justified(a: Authorization, authority: Authority) {
    match authority
    case ByPolicy => !a.presence
    case ByGrant(standing) => a.presence && Covering(a, standing.grant)
    case ByApproval(v) =>
      && v.echoed == DigestOf(a) && v.requestedAt == a.measurement.at && v.at < v.requestedAt + APPROVAL_TTL
      && StillCurrent(a.binding, v.seen, v.at)
      && (a.presence ==> v.presenceVerified)
  }

  /** The grant is a row of the table, used or revoked since at most. */
  predicate Standing(rows: Grants.Rows, standing: Broker.Standing) {
    standing.id in rows && Grants.SameGrant(standing.grant, rows[standing.id])
  }

  predicate Founded(rows: Grants.Rows, authority: Authority) {
    authority.ByGrant? ==> Standing(rows, authority.standing)
  }

  /** The terms a capability gets: what was authorised, for one use, to be
      consumed and executed in the windows the policy gave. */
  predicate Follows(a: Authorization, terms: Terms) {
    && terms.subject == a.subject && terms.binding == a.binding && terms.maxUses == 1
    && terms.consumeDeadline == terms.issuedAt + a.consumeTtl * NANOS
    && terms.executionDeadline == terms.issuedAt + a.executionTtl * NANOS
    && terms.stepDeadline == None && terms.flow == None
  }

  lemma NewTermsFollow(a: Authorization, id: Id, now: int)
    ensures Follows(a, NewCapability(a, id, now).terms)
  {
  }

  predicate MintOk(measured: Measurements, rows: Grants.Rows, m: Mint) {
    && MeasuredFor(measured, m.authorization)
    && Justified(m.authorization, m.authority) && Founded(rows, m.authority)
    && Follows(m.authorization, m.terms)
  }

  predicate TermsOk(mints: map<Id, Mint>, terms: Terms) {
    terms.id in mints && mints[terms.id].terms == terms
  }

  predicate RowOk(mints: map<Id, Mint>, id: Id, row: Store.CapabilityRow) {
    && id in mints
    && row.request == mints[id].authorization.subject.request
    && row.policyHash == mints[id].authorization.subject.policyHash
    && row.session == mints[id].authorization.binding.session && row.maxUses == 1
  }

  /** The clock allowed the release. */
  predicate InWindow(terms: Terms, at: int) {
    Seconds(terms.issuedAt) - 1 <= Seconds(at) && at < terms.consumeDeadline
  }

  predicate ConsumptionOk(mints: map<Id, Mint>, k: Consumption) {
    && k.capability in mints
    && k.context == mints[k.capability].terms.binding && InWindow(mints[k.capability].terms, k.at)
  }

  predicate PointOk(p: Point, measured: Measurements, rows: Grants.Rows, mints: map<Id, Mint>) {
    match p
    case SessionSeen(_, _, at, _, seen) => seen.active && at - seen.heartbeat <= SESSION_TTL
    case Measured(request, _, binding, m) => (request, binding, m) in measured
    case Authorized(a) => MeasuredFor(measured, a)
    case Granting(a, standing) =>
      MeasuredFor(measured, a) && Justified(a, ByGrant(standing)) && Standing(rows, standing)
    case Touched(a, standing) =>
      MeasuredFor(measured, a) && Justified(a, ByGrant(standing)) && Standing(rows, standing)
    case Requesting(a) => MeasuredFor(measured, a)
    case ApprovalStored(_, pending) => PendingOk(measured, pending)
    case Deciding(_, pending) => PendingOk(measured, pending)
    case Judged(_, pending, decision, v) =>
      PendingOk(measured, pending) && (decision == Store.Decision.Approved ==> Convincing(pending, v))
    case DecisionStored(_, pending, decision, v) =>
      PendingOk(measured, pending) && (decision == Store.Decision.Approved ==> Convincing(pending, v))
    case Minting(a, authority) => MeasuredFor(measured, a) && Justified(a, authority) && Founded(rows, authority)
    case RowMinted(c, _) => TermsOk(mints, c.terms) && c.state == Issued && c.usedCount == 0
    case EntryMinted(c) => TermsOk(mints, c.terms)
    case Verified(use) =>
      && TermsOk(mints, use.capability.terms) && use.context == use.capability.terms.binding
      && InWindow(use.capability.terms, use.now) && use.capability.state == Consumed
    case RowConsumed(_, use) => TermsOk(mints, use.capability.terms) && use.capability.state == Consumed
    case EntryConsumed(_, use) => TermsOk(mints, use.capability.terms)
    case _ => true
  }

  ghost predicate PointsOk(
    threads: map<nat, Point>, measured: Measurements, rows: Grants.Rows, mints: map<Id, Mint>)
  {
    forall t <- threads :: PointOk(threads[t], measured, rows, mints)
  }

  ghost predicate ApprovalsOk(approvals: map<Id, PendingApproval>, measured: Measurements) {
    forall id <- approvals :: PendingOk(measured, approvals[id])
  }

  ghost predicate EntriesOk(entries: map<Id, Capability>, mints: map<Id, Mint>) {
    forall id <- entries :: entries[id].terms.id == id && TermsOk(mints, entries[id].terms)
  }

  ghost predicate MintsOk(mints: map<Id, Mint>, measured: Measurements, rows: Grants.Rows) {
    forall id <- mints :: mints[id].terms.id == id && MintOk(measured, rows, mints[id])
  }

  ghost predicate RowsOk(rows: map<Id, Store.CapabilityRow>, mints: map<Id, Mint>) {
    mints.Keys == rows.Keys && forall id <- rows :: RowOk(mints, id, rows[id])
  }

  /** Every execution in the store is of a capability consumed where measured. */
  ghost predicate RunsOk(
    runs: map<Id, Store.ExecutionRow>, consumed: map<Id, Consumption>, mints: map<Id, Mint>)
  {
    forall e <- runs ::
      e in consumed && consumed[e].capability == runs[e].capability && ConsumptionOk(mints, consumed[e])
  }

  ghost predicate BindingsOk(s: State) {
    && MeasurementsOk(s.history.measured)
    && PointsOk(s.threads, s.history.measured, s.grants, s.history.mints)
    && ApprovalsOk(s.approvals, s.history.measured)
    && EntriesOk(s.capabilities, s.history.mints)
    && MintsOk(s.history.mints, s.history.measured, s.grants)
    && RowsOk(s.db.capabilities, s.history.mints)
    && RunsOk(s.db.executions, s.history.consumed, s.history.mints)
  }

  // --------------------------------------------------------- what only grows

  ghost predicate Extends(mints: map<Id, Mint>, mints': map<Id, Mint>) {
    forall id <- mints :: id in mints' && mints'[id] == mints[id]
  }

  lemma PointStaysOk(
    p: Point, measured: Measurements, measured': Measurements, rows: Grants.Rows, rows': Grants.Rows,
    mints: map<Id, Mint>, mints': map<Id, Mint>)
    requires PointOk(p, measured, rows, mints)
    requires measured <= measured' && Grants.Persist(rows, rows') && Extends(mints, mints')
    ensures PointOk(p, measured', rows', mints')
  {
    hide Justified, Convincing, InWindow, PendingFor;
  }

  lemma PointsStayOk(
    threads: map<nat, Point>, measured: Measurements, measured': Measurements, rows: Grants.Rows,
    rows': Grants.Rows, mints: map<Id, Mint>, mints': map<Id, Mint>)
    requires PointsOk(threads, measured, rows, mints)
    requires measured <= measured' && Grants.Persist(rows, rows') && Extends(mints, mints')
    ensures PointsOk(threads, measured', rows', mints')
  {
    hide PointOk, Grants.Persist, Extends;
    forall t <- threads
      ensures PointOk(threads[t], measured', rows', mints')
    {
      PointStaysOk(threads[t], measured, measured', rows, rows', mints, mints');
    }
  }

  lemma MintsStayOk(
    mints: map<Id, Mint>, measured: Measurements, measured': Measurements, rows: Grants.Rows, rows': Grants.Rows)
    requires MintsOk(mints, measured, rows) && measured <= measured' && Grants.Persist(rows, rows')
    ensures MintsOk(mints, measured', rows')
  {
    hide Justified, Follows;
    forall id <- mints
      ensures MintOk(measured', rows', mints[id])
    {
      assert MintOk(measured, rows, mints[id]);
    }
  }

  lemma ExplanationsStay(
    entries: map<Id, Capability>, entries': map<Id, Capability>, runs: map<Id, Store.ExecutionRow>,
    runs': map<Id, Store.ExecutionRow>, consumed: map<Id, Consumption>, mints: map<Id, Mint>, mints': map<Id, Mint>)
    requires EntriesOk(entries, mints) && RunsOk(runs, consumed, mints) && Extends(mints, mints')
    requires EntriesAlike(entries, entries') && RunsAlike(runs, runs')
    ensures EntriesOk(entries', mints') && RunsOk(runs', consumed, mints')
  {
    hide InWindow;
  }

  lemma RowsStayOk(rows: map<Id, Store.CapabilityRow>, rows': map<Id, Store.CapabilityRow>, mints: map<Id, Mint>)
    requires RowsOk(rows, mints) && RowsAlike(rows, rows')
    ensures RowsOk(rows', mints)
  {
  }

  lemma PointIs(s: State, t: nat)
    requires BindingsOk(s) && t in s.threads
    ensures PointOk(s.threads[t], s.history.measured, s.grants, s.history.mints)
  {
  }

  // ------------------------------------------------------------- quiet steps

  /** No mint, no consumption, no new row or entry; the thread that moves is in
      order where it gets to. */
  ghost predicate Quiet(s: State, s': State, t: nat) {
    && s.history.measured <= s'.history.measured && MeasurementsOk(s'.history.measured)
    && s'.history.mints == s.history.mints && s'.history.consumed == s.history.consumed
    && ApprovalsOk(s'.approvals, s'.history.measured)
    && EntriesAlike(s.capabilities, s'.capabilities)
    && RowsAlike(s.db.capabilities, s'.db.capabilities) && RunsAlike(s.db.executions, s'.db.executions)
    && Grants.Persist(s.grants, s'.grants)
    && (s'.threads == s.threads || s'.threads == s.threads - {t}
        || (t in s'.threads && s'.threads == s.threads[t := s'.threads[t]]
            && PointOk(s'.threads[t], s'.history.measured, s'.grants, s'.history.mints)))
  }

  lemma QuietKeeps(s: State, s': State, t: nat)
    requires BindingsOk(s) && Quiet(s, s', t)
    ensures BindingsOk(s')
  {
    hide PointOk, MeasurementsOk, ApprovalsOk, EntriesOk, MintsOk, RowsOk, RunsOk, Extends, RowsAlike, RunsAlike,
         EntriesAlike, Grants.Persist;
    SameMints(s.history.mints);
    PointsStayOk(s.threads, s.history.measured, s'.history.measured, s.grants, s'.grants,
                 s.history.mints, s.history.mints);
    MintsStayOk(s.history.mints, s.history.measured, s'.history.measured, s.grants, s'.grants);
    RowsStayOk(s.db.capabilities, s'.db.capabilities, s.history.mints);
    ExplanationsStay(s.capabilities, s'.capabilities, s.db.executions, s'.db.executions, s.history.consumed,
                     s.history.mints, s.history.mints);
  }

  lemma SameMints(mints: map<Id, Mint>)
    ensures Extends(mints, mints)
  {
  }

  lemma ApprovalsStayOk(approvals: map<Id, PendingApproval>, measured: Measurements, measured': Measurements)
    requires ApprovalsOk(approvals, measured) && measured <= measured'
    ensures ApprovalsOk(approvals, measured')
  {
  }

  /** A thread that only moves on stays in order. */
  lemma PointCarried(s: State, step: Step, t: nat, q: Point, rows: Grants.Rows)
    requires BindingsOk(s) && Idle(step) && Leads(s, step, Was(s, t), q) && Grants.Persist(s.grants, rows)
    ensures PointOk(q, s.history.measured, rows, s.history.mints)
  {
    hide Leads, PointOk, Idle, Grants.Persist;
    if t in s.threads {
      PointIs(s, t);
    }
    SameMints(s.history.mints);
    if q.Minting? || q.Granting? || q.Touched? {
      MintingCarried(s, step, t, q);
    } else if q.Verified? {
      MintsAreSingleUse(s);
      VerifiedCarried(s, step, t, q);
    } else if AuthorizationOf(q).Some? {
      AuthorizationCarried(s, step, t, q);
    } else {
      OthersCarried(s, step, t, q);
    }
    PointStaysOk(q, s.history.measured, s.history.measured, s.grants, rows, s.history.mints, s.history.mints);
  }

  ghost predicate WasOk(s: State, t: nat) {
    t in s.threads ==> PointOk(s.threads[t], s.history.measured, s.grants, s.history.mints)
  }

  lemma MintingCarried(s: State, step: Step, t: nat, q: Point)
    requires WasOk(s, t) && Leads(s, step, Was(s, t), q) && (q.Minting? || q.Granting? || q.Touched?)
    ensures PointOk(q, s.history.measured, s.grants, s.history.mints)
  {
    hide Covering, StillCurrent;
  }

  ghost predicate SingleUse(mints: map<Id, Mint>) {
    forall id <- mints :: mints[id].terms.maxUses == 1
  }

  lemma MintsAreSingleUse(s: State)
    requires BindingsOk(s)
    ensures SingleUse(s.history.mints)
    ensures EntriesOk(s.capabilities, s.history.mints)
  {
    forall id <- s.history.mints
      ensures s.history.mints[id].terms.maxUses == 1
    {
      assert MintOk(s.history.measured, s.grants, s.history.mints[id]);
    }
  }

  lemma VerifiedCarried(s: State, step: Step, t: nat, q: Point)
    requires EntriesOk(s.capabilities, s.history.mints) && SingleUse(s.history.mints)
    requires Leads(s, step, Was(s, t), q) && q.Verified?
    ensures PointOk(q, s.history.measured, s.grants, s.history.mints)
  {
  }

  lemma AuthorizationCarried(s: State, step: Step, t: nat, q: Point)
    requires ApprovalsOk(s.approvals, s.history.measured)
    requires WasOk(s, t) && Leads(s, step, Was(s, t), q)
    requires AuthorizationOf(q).Some? && !q.Minting? && !q.Granting? && !q.Touched?
    ensures PointOk(q, s.history.measured, s.grants, s.history.mints)
  {
    hide Convincing;
  }

  lemma OthersCarried(s: State, step: Step, t: nat, q: Point)
    requires WasOk(s, t) && Idle(step) && Leads(s, step, Was(s, t), q)
    requires AuthorizationOf(q) == None && !q.Verified?
    ensures PointOk(q, s.history.measured, s.grants, s.history.mints)
  {
  }

  // -------------------------------------------------------------- loud steps

  lemma MeasureKeeps(s: State, t: nat, tab: nat, target: Origin)
    requires BindingsOk(s)
    ensures BindingsOk(Measure(s, t, tab, target))
  {
    hide BindingsOk;
    if t in s.threads && s.threads[t].SessionSeen? {
      PointIs(s, t);
      MeasuredIsOk(s, t, tab, target);
      var s' := Measure(s, t, tab, target);
      MeasureIsQuiet(s, s', t);
      QuietKeeps(s, s', t);
    }
  }

  lemma MeasuredIsOk(s: State, t: nat, tab: nat, target: Origin)
    requires BindingsOk(s) && t in s.threads && s.threads[t].SessionSeen?
    requires PointOk(s.threads[t], s.history.measured, s.grants, s.history.mints)
    ensures var s' := Measure(s, t, tab, target);
            && s.history.measured <= s'.history.measured && MeasurementsOk(s'.history.measured)
            && t in s'.threads && s'.threads == s.threads[t := s'.threads[t]]
            && PointOk(s'.threads[t], s'.history.measured, s.grants, s.history.mints)
  {
    hide BindingsOk, PageOf;
    assert MeasurementsOk(s.history.measured) by { MeasurementsAre(s); }
  }

  lemma MeasurementsAre(s: State)
    requires BindingsOk(s)
    ensures MeasurementsOk(s.history.measured)
  {
  }

  lemma MeasureIsQuiet(s: State, s': State, t: nat)
    requires BindingsOk(s)
    requires s' == s.(threads := s'.threads, history := s.history.(measured := s'.history.measured))
    requires s.history.measured <= s'.history.measured && MeasurementsOk(s'.history.measured)
    requires t in s'.threads && s'.threads == s.threads[t := s'.threads[t]]
    requires PointOk(s'.threads[t], s'.history.measured, s.grants, s.history.mints)
    ensures Quiet(s, s', t)
  {
    hide PointOk, MeasurementsOk, RowsAlike, RunsAlike, EntriesAlike;
    Unchanged(s);
    ApprovalsStayOk(s.approvals, s.history.measured, s'.history.measured);
  }

  /** Only approvals and a thread change. */
  lemma ApprovalsChange(s: State, s': State, t: nat)
    requires BindingsOk(s) && s' == s.(approvals := s'.approvals, threads := s'.threads)
    requires ApprovalsOk(s'.approvals, s.history.measured)
    requires t in s'.threads && s'.threads == s.threads[t := s'.threads[t]]
    requires PointOk(s'.threads[t], s.history.measured, s.grants, s.history.mints)
    ensures BindingsOk(s')
  {
    hide PointOk, ApprovalsOk, MeasurementsOk, RowsAlike, RunsAlike, EntriesAlike;
    Unchanged(s);
    QuietKeeps(s, s', t);
  }

  lemma ApprovalsAre(s: State)
    requires BindingsOk(s)
    ensures ApprovalsOk(s.approvals, s.history.measured)
  {
  }

  lemma PublishApprovalKeeps(s: State, t: nat)
    requires BindingsOk(s)
    ensures BindingsOk(PublishApproval(s, t))
  {
    hide BindingsOk;
    if t in s.threads && s.threads[t].ApprovalStored? {
      PointIs(s, t);
      ApprovalsAre(s);
      ApprovalsChange(s, PublishApproval(s, t), t);
    }
  }

  lemma DropApprovalKeeps(s: State, t: nat)
    requires BindingsOk(s)
    ensures BindingsOk(DropApproval(s, t))
  {
    hide BindingsOk, StillCurrent;
    if t in s.threads && s.threads[t].DecisionStored? {
      PointIs(s, t);
      ApprovalsAre(s);
      ApprovalsChange(s, DropApproval(s, t), t);
    }
  }

  /** A decision is an approval exactly when it was taken in time, echoes the
      digest, meets the page that was measured, and the human agrees, in person
      where presence is required. */
  lemma ApprovedIffConvincing(
    s: State, t: nat, approve: bool, echoed: Digest, presenceVerified: bool, now: int)
    requires t in s.threads && s.threads[t].Deciding?
    ensures var s' := Judge(s, t, approve, echoed, presenceVerified, now);
            var pending := s.threads[t].pending;
            var b := pending.authorization.binding;
            && t in s'.threads && s'.threads[t].Judged?
            && (s'.threads[t].decision == Store.Decision.Approved
                <==> approve && HasPage(s, b.session, b.tab) && Convincing(pending, s'.threads[t].verdict))
            && s'.threads[t].verdict.at == now && s'.threads[t].verdict.seen == PageOf(s, b.session, b.tab)
            && s'.threads[t].verdict.echoed == echoed
  {
  }

  lemma MintRowKeeps(
    env: Env, s: State, t: nat, id: Id, now: int, content: Ledger.EventContent, stored: bool)
    requires BindingsOk(s)
    ensures BindingsOk(MintRow(env, s, t, id, now, content, stored))
  {
    hide Transact, BindingsOk, NewCapability, NewRow, Justified, Founded, Follows;
    if t in s.threads && s.threads[t].Minting? {
      PointIs(s, t);
      var s' := MintRow(env, s, t, id, now, content, stored);
      var p := s.threads[t];
      var row := NewRow(p.authorization, s.boot);
      if Transact(env, s, Store.InsertCapability(s.db, id, row), content, stored).0 {
        NewTermsFollow(p.authorization, id, now);
        NewRowIs(p.authorization, s.boot);
        Minted(s, s', t, id, row, MintOf(p, id, now),
               RowMinted(NewCapability(p.authorization, id, now), p.authorization.generator));
      } else {
        Passes(s, s', t);
      }
    }
  }

  lemma NewRowIs(a: Authorization, boot: nat)
    ensures var row := NewRow(a, boot);
            && row.request == a.subject.request && row.policyHash == a.subject.policyHash
            && row.session == a.binding.session && row.maxUses == 1
  {
  }

  /** Only a thread changes: it ends, or reports. */
  lemma Passes(s: State, s': State, t: nat)
    requires BindingsOk(s) && s' == s.(threads := s'.threads)
    requires s'.threads == s.threads - {t}
             || (t in s'.threads && s'.threads == s.threads[t := s'.threads[t]] && s'.threads[t].Reporting?)
    ensures BindingsOk(s')
  {
    hide MeasurementsOk, ApprovalsOk, RowsAlike, RunsAlike, EntriesAlike;
    Unchanged(s);
    QuietKeeps(s, s', t);
  }

  lemma PointAdded(
    threads: map<nat, Point>, measured: Measurements, rows: Grants.Rows, mints: map<Id, Mint>, t: nat, q: Point)
    requires PointsOk(threads, measured, rows, mints) && PointOk(q, measured, rows, mints)
    ensures PointsOk(threads[t := q], measured, rows, mints)
  {
    hide PointOk;
  }

  /** One more mint explains one more row and disturbs no explanation. */
  lemma MintAdded(
    rows: map<Id, Store.CapabilityRow>, mints: map<Id, Mint>, measured: Measurements, grants: Grants.Rows,
    id: Id, row: Store.CapabilityRow, m: Mint)
    requires RowsOk(rows, mints) && MintsOk(mints, measured, grants) && id !in rows
    requires MintOk(measured, grants, m) && m.terms.id == id && RowOk(mints[id := m], id, row)
    ensures RowsOk(rows[id := row], mints[id := m]) && MintsOk(mints[id := m], measured, grants)
    ensures Extends(mints, mints[id := m])
  {
    hide MintOk;
    var rows' := rows[id := row];
    forall other <- rows'
      ensures RowOk(mints[id := m], other, rows'[other])
    {
      assert other != id ==> RowOk(mints, other, rows[other]);
    }
  }

  lemma Minted(s: State, s': State, t: nat, id: Id, row: Store.CapabilityRow, m: Mint, q: Point)
    requires BindingsOk(s)
    requires id !in s.db.capabilities && s'.db.capabilities == s.db.capabilities[id := row]
    requires s'.db.executions == s.db.executions && s'.grants == s.grants
    requires MintOk(s.history.measured, s.grants, m)
    requires s'.history.measured == s.history.measured && s'.history.consumed == s.history.consumed
    requires s'.history.mints == s.history.mints[id := m] && RowOk(s'.history.mints, id, row)
    requires q.RowMinted? && q.capability.terms.id == id && q.capability.terms == m.terms
    requires q.capability.state == Issued && q.capability.usedCount == 0
    requires s'.threads == s.threads[t := q]
    requires s'.approvals == s.approvals && s'.capabilities == s.capabilities
    ensures BindingsOk(s')
  {
    hide MintOk, RowOk, MeasurementsOk, PointsOk, ApprovalsOk, EntriesOk, MintsOk, RowsOk, RunsOk, Extends,
         RunsAlike, EntriesAlike;
    var mints, mints', measured := s.history.mints, s'.history.mints, s.history.measured;
    MintAdded(s.db.capabilities, mints, measured, s.grants, id, row, m);
    PointsStayOk(s.threads, measured, measured, s.grants, s.grants, mints, mints');
    PointAdded(s.threads, measured, s.grants, mints', t, q);
    Unchanged(s);
    ExplanationsStay(s.capabilities, s.capabilities, s.db.executions, s.db.executions, s.history.consumed,
                     mints, mints');
  }

  /** An entry is written by a thread that goes on to `q`. */
  lemma EntryWritten(s: State, s': State, t: nat, c: Capability, q: Point)
    requires BindingsOk(s) && TermsOk(s.history.mints, c.terms)
    requires s' == s.(capabilities := s'.capabilities, generators := s'.generators, threads := s.threads[t := q])
    requires s'.capabilities == s.capabilities[c.terms.id := c] || s'.capabilities == s.capabilities
    requires PointOk(q, s.history.measured, s.grants, s.history.mints)
    ensures BindingsOk(s')
  {
    hide PointOk, PointsOk, MeasurementsOk, ApprovalsOk, MintsOk, RowsOk, RunsOk;
    PointAdded(s.threads, s.history.measured, s.grants, s.history.mints, t, q);
  }

  lemma PublishCapabilityKeeps(s: State, t: nat)
    requires BindingsOk(s)
    ensures BindingsOk(PublishCapability(s, t))
  {
    hide BindingsOk;
    if t in s.threads && s.threads[t].RowMinted? {
      PointIs(s, t);
      var c := s.threads[t].capability;
      EntryWritten(s, PublishCapability(s, t), t, c, EntryMinted(c));
    }
  }

  lemma WriteBackKeeps(s: State, t: nat)
    requires BindingsOk(s)
    ensures BindingsOk(WriteBack(s, t))
  {
    hide BindingsOk;
    if t in s.threads && s.threads[t].RowConsumed? {
      PointIs(s, t);
      var p := s.threads[t];
      EntryWritten(s, WriteBack(s, t), t, p.use.capability, EntryConsumed(p.execution, p.use));
    }
  }

  lemma ConsumeRowKeeps(env: Env, s: State, t: nat, execution: Id, content: Ledger.EventContent, stored: bool)
    requires BindingsOk(s)
    ensures BindingsOk(ConsumeRow(env, s, t, execution, content, stored))
  {
    hide Transact, BindingsOk, TotpClaim, Store.ConsumeWithExecution;
    if t in s.threads && s.threads[t].Verified? {
      PointIs(s, t);
      var use := s.threads[t].use;
      var s' := ConsumeRow(env, s, t, execution, content, stored);
      var id, step := use.capability.terms.id, TotpClaim(use);
      if Transact(env, s, Store.ConsumeWithExecution(s.db, id, execution, step), content, stored).0 {
        ConsumedRows(s.db, id, execution, step);
        RunStarted(s, s', t, execution, use);
      } else {
        Passes(s, s', t);
      }
    }
  }

  ghost predicate Spends(db: Store.Tables, next: Store.Tables, id: Id, execution: Id) {
    && RowsAlike(db.capabilities, next.capabilities)
    && execution !in db.executions && next.executions.Keys == db.executions.Keys + {execution}
    && next.executions[execution].capability == id
    && forall e <- db.executions :: next.executions[e] == db.executions[e]
  }

  lemma ConsumedRows(db: Store.Tables, id: Id, execution: Id, step: Option<Store.TotpStep>)
    requires Store.ConsumeWithExecution(db, id, execution, step).Some?
    ensures Spends(db, Store.ConsumeWithExecution(db, id, execution, step).value, id, execution)
  {
  }

  lemma RunAdded(
    runs: map<Id, Store.ExecutionRow>, runs': map<Id, Store.ExecutionRow>, consumed: map<Id, Consumption>,
    mints: map<Id, Mint>, e: Id, k: Consumption)
    requires RunsOk(runs, consumed, mints) && ConsumptionOk(mints, k)
    requires e !in runs && runs'.Keys == runs.Keys + {e} && runs'[e].capability == k.capability
    requires forall f <- runs :: runs'[f] == runs[f]
    ensures RunsOk(runs', consumed[e := k], mints)
  {
    hide ConsumptionOk;
  }

  lemma RunStarted(s: State, s': State, t: nat, e: Id, use: Use)
    requires BindingsOk(s) && Spends(s.db, s'.db, use.capability.terms.id, e)
    requires PointOk(Verified(use), s.history.measured, s.grants, s.history.mints)
    requires s'.history.measured == s.history.measured && s'.history.mints == s.history.mints
    requires s'.history.consumed == s.history.consumed[e := ConsumptionOf(use)]
    requires s'.threads == s.threads[t := RowConsumed(e, use)]
    requires s'.approvals == s.approvals && s'.capabilities == s.capabilities && s'.grants == s.grants
    ensures BindingsOk(s')
  {
    hide InWindow, RowsAlike, MeasurementsOk, PointsOk, ApprovalsOk, EntriesOk, MintsOk, RowsOk, RunsOk;
    var mints := s.history.mints;
    PointAdded(s.threads, s.history.measured, s.grants, mints, t, RowConsumed(e, use));
    RowsStayOk(s.db.capabilities, s'.db.capabilities, mints);
    RunAdded(s.db.executions, s'.db.executions, s.history.consumed, mints, e, ConsumptionOf(use));
  }

  lemma Recovered(db: Store.Tables, consumed: map<Id, Consumption>, mints: map<Id, Mint>)
    requires RowsOk(db.capabilities, mints) && RunsOk(db.executions, consumed, mints)
    ensures RowsOk(Store.Recover(db).capabilities, mints) && RunsOk(Store.Recover(db).executions, consumed, mints)
  {
    hide ConsumptionOk, RowsOk;
    RowsStayOk(db.capabilities, Store.Recover(db).capabilities, mints);
  }

  lemma RestartKeeps(s: State, signer: Ledger.Signer, policyHash: Bytes, hashRead: bool)
    requires BindingsOk(s)
    ensures BindingsOk(Restart(s, signer, policyHash, hashRead))
  {
    hide Ledger.Reopen, Store.Recover, MeasurementsOk, MintsOk, RowsOk, RunsOk;
    Recovered(s.db, s.history.consumed, s.history.mints);
  }

  // --------------------------------------------------------------- all steps

  /** The steps that write none of the parts this invariant speaks of, but for
      the uses and revocations of grants. */
  predicate Idle(step: Step) {
    match step
    case Ask(_, DoMeasure(_, _)) => false
    case Ask(_, DoPublishApproval) => false
    case Decide(_, DoDropApproval) => false
    case Issue(_, DoMintRow(_, _, _, _)) => false
    case Issue(_, DoPublishCapability) => false
    case Consume(_, DoConsumeRow(_, _, _)) => false
    case Consume(_, DoWriteBack) => false
    case World(DoRestart(_, _, _)) => false
    case _ => true
  }

  lemma IdleWrites(step: Step)
    requires Idle(step)
    ensures !IsRestart(step)
    ensures Written(step) !! {Part.Measurements, Mints, Consumptions, Approvals, EntrySet, RowSet, RunSet}
  {
  }

  lemma IdleKeeps(env: Env, s: State, step: Step)
    requires BindingsOk(s) && Idle(step)
    ensures BindingsOk(Next(env, s, step))
  {
    hide Next, Leads, PointOk, Idle, Written, RowsAlike, RunsAlike, EntriesAlike, Grants.Persist, BindingsOk,
         Grants.OneLive, MeasurementsOk, ApprovalsOk;
    var s' := Next(env, s, step);
    IdleWrites(step);
    StepFrame(env, s, step);
    StepMoves(env, s, step);
    BrokerDurable.GrantsPersist(env, s, step);
    MeasurementsAre(s);
    ApprovalsAre(s);
    match Actor(step)
    case None => QuietKeeps(s, s', 0);
    case Some(t) =>
      if s'.threads != s.threads && s'.threads != s.threads - {t} {
        PointCarried(s, step, t, s'.threads[t], s'.grants);
      }
      QuietKeeps(s, s', t);
  }

  lemma StepKeeps(env: Env, s: State, step: Step)
    requires BindingsOk(s)
    ensures BindingsOk(Next(env, s, step))
  {
    hide BindingsOk, Measure, PublishApproval, DropApproval, MintRow, PublishCapability, ConsumeRow, WriteBack,
         Restart;
    match step
    case Ask(t, DoMeasure(tab, target)) => MeasureKeeps(s, t, tab, target);
    case Ask(t, DoPublishApproval) => PublishApprovalKeeps(s, t);
    case Decide(t, DoDropApproval) => DropApprovalKeeps(s, t);
    case Issue(t, DoMintRow(id, now, content, stored)) => MintRowKeeps(env, s, t, id, now, content, stored);
    case Issue(t, DoPublishCapability) => PublishCapabilityKeeps(s, t);
    case Consume(t, DoConsumeRow(execution, content, stored)) =>
      ConsumeRowKeeps(env, s, t, execution, content, stored);
    case Consume(t, DoWriteBack) => WriteBackKeeps(s, t);
    case World(DoRestart(signer, policyHash, hashRead)) => RestartKeeps(s, signer, policyHash, hashRead);
    case _ => IdleKeeps(env, s, step);
  }

  lemma {:induction false} RunKeeps(env: Env, s: State, steps: seq<Step>)
    requires BindingsOk(s)
    ensures BindingsOk(Run(env, s, steps))
    decreases |steps|
  {
    hide Next, BindingsOk;
    if steps != [] {
      StepKeeps(env, s, steps[0]);
      RunKeeps(env, Next(env, s, steps[0]), steps[1..]);
    }
  }

  /** The story behind an execution row. */
  ghost predicate Explained(s: State, e: Id)
    requires e in s.db.executions
  {
    var id := s.db.executions[e].capability;
    && e in s.history.consumed && s.history.consumed[e].capability == id && id in s.history.mints
    && var m := s.history.mints[id];
       && s.history.consumed[e].context == m.authorization.binding
       && MeasuredFor(s.history.measured, m.authorization)
       && MeasurementOk(m.authorization.binding, m.authorization.measurement)
       && InWindow(m.terms, s.history.consumed[e].at)
       && Follows(m.authorization, m.terms)
       && Justified(m.authorization, m.authority) && Founded(s.grants, m.authority)
  }

  /** From an empty store, in every interleaving and across restarts: every
      committed consume was made in exactly the position (origins, session,
      extension key, tab, frame, document, epoch) measured when its request was
      authorised, and if that needed presence, under a standing grant of the
      table that covered it then, or a timely approval of the same digest while
      the page was still current. */
  lemma EveryConsumeIsBound(env: Env, signer: Ledger.Signer, policyHash: Bytes, steps: seq<Step>, e: Id)
    requires e in Run(env, Initial(signer, policyHash), steps).db.executions
    ensures Explained(Run(env, Initial(signer, policyHash), steps), e)
  {
    hide Run, Audit.Genesis, Justified, Founded, InWindow, MeasurementOk;
    RunKeeps(env, Initial(signer, policyHash), steps);
    var after := Run(env, Initial(signer, policyHash), steps);
    var m := after.history.mints[after.db.executions[e].capability];
    assert MintOk(after.history.measured, after.grants, m);
    var k := (m.authorization.subject.request, m.authorization.binding, m.authorization.measurement);
    assert k in after.history.measured && MeasurementOk(k.1, k.2);
  }

  predicate OfferBound(h: History, o: Offer) {
    && o.capability in h.mints
    && var a := h.mints[o.capability].authorization;
       o.session == a.binding.session && MeasuredFor(h.measured, a)
  }

  ghost predicate OffersBound(h: History) {
    forall i :: 0 <= i < |h.offered| ==> OfferBound(h, h.offered[i])
  }

  /** Every offer goes to the very session whose page was measured. */
  lemma OffersGoWhereMeasured(env: Env, signer: Ledger.Signer, policyHash: Bytes, steps: seq<Step>)
    ensures OffersBound(Run(env, Initial(signer, policyHash), steps).history)
  {
    hide Run, Audit.Genesis;
    RunKeeps(env, Initial(signer, policyHash), steps);
    BrokerOffers.OneOfferToItsSession(env, signer, policyHash, steps);
    var after := Run(env, Initial(signer, policyHash), steps);
    forall i | 0 <= i < |after.history.offered|
      ensures OfferBound(after.history, after.history.offered[i])
    {
      var o := after.history.offered[i];
      assert BrokerOffers.Destined(after.db.capabilities, o);
      assert RowOk(after.history.mints, o.capability, after.db.capabilities[o.capability]);
      assert MintOk(after.history.measured, after.grants, after.history.mints[o.capability]);
    }
  }

  // ---------------------------------------------------------------- the lookup

  ghost predicate SomeGrantCovers(rows: Grants.Rows, a: Authorization) {
    exists id :: id in rows && Covering(a, rows[id])
  }

  /** In every reachable state a request that needs presence goes on under a
      grant exactly when a scan of the whole table would find one that covers
      it; otherwise a human is asked. */
  lemma LookupIsExact(
    env: Env, signer: Ledger.Signer, policyHash: Bytes, steps: seq<Step>, t: nat, found: Option<Id>)
    requires t in Run(env, Initial(signer, policyHash), steps).threads
    requires Run(env, Initial(signer, policyHash), steps).threads[t].Authorized?
    requires Run(env, Initial(signer, policyHash), steps).threads[t].authorization.presence
    requires var s := Run(env, Initial(signer, policyHash), steps);
             Finds(s.grants, TupleOf(s.threads[t].authorization), found)
    ensures var s := Run(env, Initial(signer, policyHash), steps);
            var a, q := s.threads[t].authorization, Was(Route(s, t, found, true), t);
            && (SomeGrantCovers(s.grants, a) ==> q.Some? && q.value.Granting?)
            && (!SomeGrantCovers(s.grants, a) ==> q == Some(Requesting(a)))
  {
    hide Run, Audit.Genesis;
    BrokerDurable.GrantsStayUnique(env, Initial(signer, policyHash), steps);
    var s := Run(env, Initial(signer, policyHash), steps);
    Routed(s, t, found);
  }

  lemma Routed(s: State, t: nat, found: Option<Id>)
    requires Grants.OneLive(s.grants)
    requires t in s.threads && s.threads[t].Authorized? && s.threads[t].authorization.presence
    requires Finds(s.grants, TupleOf(s.threads[t].authorization), found)
    ensures var a, q := s.threads[t].authorization, Was(Route(s, t, found, true), t);
            && (SomeGrantCovers(s.grants, a) ==> q.Some? && q.value.Granting?)
            && (!SomeGrantCovers(s.grants, a) ==> q == Some(Requesting(a)))
  {
    var a := s.threads[t].authorization;
    forall id <- s.grants | Covering(a, s.grants[id])
      ensures found == Some(id)
    {
    }
  }
}
