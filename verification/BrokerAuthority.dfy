/** One request, one approval, one capability: the authority a request id
    carries is claimed once under the fingerprint lock and then only handed on,
    from thread to approval row to thread to capability row. */
module BrokerAuthority {
  import opened ByteStrings
  import opened Wrappers
  import opened Domain
  import opened Broker
  import opened BrokerFrame
  import opened BrokerDurable
  import Audit
  import Ledger
  import Store

  /** The request a thread can still turn into an approval or a capability. */
  function Claim(p: Point): Option<Id> {
    match p
    case Admitted(request, _) => Some(request)
    case Bound(request, _) => Some(request)
    case Screening(request, _, _) => Some(request)
    case Screened(request, _, _) => Some(request)
    case SessionSeen(request, _, _, _, _) => Some(request)
    case Measured(request, _, _, _) => Some(request)
    case Authorized(a) => Some(a.subject.request)
    case Granting(a, _) => Some(a.subject.request)
    case Touched(a, _) => Some(a.subject.request)
    case Requesting(a) => Some(a.subject.request)
    case DecisionStored(_, pending, decision, _) =>
      if decision == Store.Decision.Approved then Some(pending.authorization.subject.request) else None
    case Minting(a, _) => Some(a.subject.request)
    case _ => None
  }

  /** A claim that has not been through an approval. */
  predicate Early(p: Point) {
    !p.DecisionStored? && !(p.Minting? && p.authority.ByApproval?)
  }

  /** The approval a thread holds a copy of. */
  function Held(p: Point): Option<(Id, PendingApproval)> {
    match p
    case ApprovalStored(approval, pending) => Some((approval, pending))
    case Deciding(approval, pending) => Some((approval, pending))
    case Judged(approval, pending, _, _) => Some((approval, pending))
    case _ => None
  }

  // --------------------------------------------------------------- invariant

  predicate ClaimHeld(t: nat, p: Point, holder: map<Id, Place>, approvalOf: map<Id, Id>) {
    Claim(p).Some? ==>
      HeldAt(holder, Claim(p).value, WithThread(t)) && (Early(p) ==> Claim(p).value !in approvalOf)
  }

  ghost predicate ClaimsHeld(threads: map<nat, Point>, holder: map<Id, Place>, approvalOf: map<Id, Id>) {
    forall t <- threads :: ClaimHeld(t, threads[t], holder, approvalOf)
  }

  predicate CapabilityHeld(id: Id, row: Store.CapabilityRow, boot: nat, holder: map<Id, Place>) {
    row.boot <= boot && (row.boot == boot ==> HeldAt(holder, row.request, InCapability(id)))
  }

  ghost predicate CapabilitiesHeld(rows: map<Id, Store.CapabilityRow>, boot: nat, holder: map<Id, Place>) {
    forall id <- rows :: CapabilityHeld(id, rows[id], boot, holder)
  }

  predicate ApprovalHeld(id: Id, row: Store.ApprovalRow, boot: nat, holder: map<Id, Place>, approvalOf: map<Id, Id>) {
    && row.boot <= boot
    && (row.boot == boot ==>
          && row.request in approvalOf && approvalOf[row.request] == id
          && (row.decision == Store.Pending ==> HeldAt(holder, row.request, InApproval(id))))
  }

  ghost predicate ApprovalsHeld(
    rows: map<Id, Store.ApprovalRow>, boot: nat, holder: map<Id, Place>, approvalOf: map<Id, Id>)
  {
    forall id <- rows :: ApprovalHeld(id, rows[id], boot, holder, approvalOf)
  }

  ghost predicate HoldersAdmitted(h: History, fingerprints: map<Id, Bytes>) {
    h.holder.Keys <= fingerprints.Keys && h.approvalOf.Keys <= fingerprints.Keys
  }

  /** A copy speaks of a row of this process, with the same request. */
  predicate Backed(rows: map<Id, Store.ApprovalRow>, boot: nat, approval: Id, pending: PendingApproval) {
    && approval in rows && rows[approval].boot == boot
    && rows[approval].request == pending.authorization.subject.request
  }

  predicate CopyBacked(p: Point, rows: map<Id, Store.ApprovalRow>, boot: nat) {
    && (Held(p).Some? ==> Backed(rows, boot, Held(p).value.0, Held(p).value.1))
    && (p.Judged? ==> p.decision != Store.Pending)
  }

  ghost predicate CopiesBacked(
    approvals: map<Id, PendingApproval>, threads: map<nat, Point>, rows: map<Id, Store.ApprovalRow>, boot: nat)
  {
    && (forall id <- approvals :: Backed(rows, boot, id, approvals[id]))
    && (forall t <- threads :: CopyBacked(threads[t], rows, boot))
  }

  ghost predicate AuthorityOk(s: State) {
    && HoldersAdmitted(s.history, s.fingerprints)
    && ClaimsHeld(s.threads, s.history.holder, s.history.approvalOf)
    && CapabilitiesHeld(s.db.capabilities, s.boot, s.history.holder)
    && ApprovalsHeld(s.db.approvals, s.boot, s.history.holder, s.history.approvalOf)
    && CopiesBacked(s.approvals, s.threads, s.db.approvals, s.boot)
  }

  // ------------------------------------------------------------- quiet steps

  /** The new point of thread `t` claims and holds nothing it did not have. */
  ghost predicate NoGain(s: State, t: nat, p: Point) {
    NoClaimGained(s, t, p) && NoCopyGained(s, t, p)
  }

  predicate NoClaimGained(s: State, t: nat, p: Point) {
    Claim(p).Some? ==> t in s.threads && Claim(s.threads[t]) == Claim(p) && (Early(p) ==> Early(s.threads[t]))
  }

  predicate NoCopyGained(s: State, t: nat, p: Point) {
    && (Held(p).Some? ==>
          || (t in s.threads && Held(s.threads[t]) == Held(p))
          || (Held(p).value.0 in s.approvals && s.approvals[Held(p).value.0] == Held(p).value.1))
    && (p.Judged? ==> p.decision != Store.Pending)
  }

  /** Only threads, states of rows, and things out of sight change. */
  ghost predicate Kept(s: State, s': State) {
    && s'.boot == s.boot && s'.fingerprints == s.fingerprints && s'.approvals == s.approvals
    && s'.history.holder == s.history.holder && s'.history.approvalOf == s.history.approvalOf
    && s'.db.approvals == s.db.approvals && RowsAlike(s.db.capabilities, s'.db.capabilities)
  }

  ghost predicate Quiet(s: State, s': State, t: nat) {
    && Kept(s, s')
    && (s'.threads == s.threads || s'.threads == s.threads - {t}
        || (t in s'.threads && s'.threads == s.threads[t := s'.threads[t]] && NoGain(s, t, s'.threads[t])))
  }

  lemma QuietKeeps(s: State, s': State, t: nat)
    requires AuthorityOk(s) && Quiet(s, s', t)
    ensures AuthorityOk(s')
  {
    assert ClaimsHeld(s'.threads, s.history.holder, s.history.approvalOf);
    assert CopiesBacked(s'.approvals, s'.threads, s.db.approvals, s.boot);
    assert CapabilitiesHeld(s'.db.capabilities, s.boot, s.history.holder);
  }

  lemma Passes(s: State, s': State, t: nat, q: Point)
    requires AuthorityOk(s) && Kept(s, s') && s'.threads == s.threads[t := q] && NoGain(s, t, q)
    ensures AuthorityOk(s')
  {
    hide AuthorityOk, NoGain, Kept;
    QuietKeeps(s, s', t);
  }

  lemma GotoKeeps(s: State, t: nat, p: Point)
    requires AuthorityOk(s) && NoGain(s, t, p)
    ensures AuthorityOk(s.Goto(t, p))
  {
    hide Claim, Held, Early;
    QuietKeeps(s, s.Goto(t, p), t);
  }

  lemma ReturnKeeps(s: State, t: nat)
    requires AuthorityOk(s)
    ensures AuthorityOk(s.Return(t))
  {
  }

  // -------------------------------------------------------------- loud steps

  /** Moving the authority of `r` to `place` while thread `t` goes to `p`. */
  lemma ClaimsMove(
    threads: map<nat, Point>, holder: map<Id, Place>, approvalOf: map<Id, Id>,
    t: nat, p: Point, r: Id, place: Place, approvalOf': map<Id, Id>)
    requires ClaimsHeld(threads, holder, approvalOf)
    requires r in holder && holder[r].WithThread? ==> holder[r].t == t
    requires approvalOf'.Keys <= approvalOf.Keys + {r}
    requires ClaimHeld(t, p, holder[r := place], approvalOf')
    ensures ClaimsHeld(threads[t := p], holder[r := place], approvalOf')
  {
  }

  lemma CapabilitiesMove(rows: map<Id, Store.CapabilityRow>, boot: nat, holder: map<Id, Place>, r: Id, place: Place)
    requires CapabilitiesHeld(rows, boot, holder)
    requires r in holder ==> !holder[r].InCapability?
    ensures CapabilitiesHeld(rows, boot, holder[r := place])
  {
  }

  lemma ApprovalsMove(
    rows: map<Id, Store.ApprovalRow>, boot: nat, holder: map<Id, Place>, approvalOf: map<Id, Id>, r: Id, place: Place)
    requires ApprovalsHeld(rows, boot, holder, approvalOf)
    requires r in holder ==> !holder[r].InApproval?
    ensures ApprovalsHeld(rows, boot, holder[r := place], approvalOf)
  {
  }

  ghost predicate Unmoved(s: State, s': State) {
    s'.boot == s.boot && s'.fingerprints == s.fingerprints && s'.approvals == s.approvals
  }

  lemma SubmitKeeps(s: State, t: nat, request: Id, agent: Id, fingerprint: Bytes)
    requires AuthorityOk(s)
    ensures AuthorityOk(Submit(s, t, request, agent, fingerprint))
  {
    if !s.At(t) && request !in s.fingerprints {
      var h := s.history;
      ClaimsMove(s.threads, h.holder, h.approvalOf, t, Admitted(request, agent), request, WithThread(t), h.approvalOf);
      CapabilitiesMove(s.db.capabilities, s.boot, h.holder, request, WithThread(t));
      ApprovalsMove(s.db.approvals, s.boot, h.holder, h.approvalOf, request, WithThread(t));
    }
  }

  lemma StoreApprovalKeeps(env: Env, s: State, t: nat, approval: Id, content: Ledger.EventContent, stored: bool)
    requires AuthorityOk(s)
    ensures AuthorityOk(StoreApproval(env, s, t, approval, content, stored))
  {
    hide Transact, AuthorityOk;
    var s' := StoreApproval(env, s, t, approval, content, stored);
    if s' != s {
      var a := s.threads[t].authorization;
      var row := Store.ApprovalRow(a.subject.request, Store.Pending, s.boot);
      if Transact(env, s, Store.InsertApproval(s.db, approval, row), content, stored).0 {
        ApprovalInserted(s, s', t, approval, row);
      } else {
        GotoKeeps(s, t, s'.threads[t]);
      }
    }
  }

  lemma ApprovalInserted(s: State, s': State, t: nat, approval: Id, row: Store.ApprovalRow)
    requires AuthorityOk(s)
    requires row.decision == Store.Pending && row.boot == s.boot && approval !in s.db.approvals
    requires t in s.threads && Claim(s.threads[t]) == Some(row.request) && Early(s.threads[t])
    requires t in s'.threads && s'.threads == s.threads[t := s'.threads[t]]
    requires Claim(s'.threads[t]) == None && !s'.threads[t].Judged? && Held(s'.threads[t]).Some?
             && Held(s'.threads[t]).value.0 == approval
             && Held(s'.threads[t]).value.1.authorization.subject.request == row.request
    requires Unmoved(s, s') && s'.db.capabilities == s.db.capabilities
    requires s'.db.approvals == s.db.approvals[approval := row]
    requires s'.history.holder == s.history.holder[row.request := InApproval(approval)]
    requires s'.history.approvalOf == s.history.approvalOf[row.request := approval]
    ensures AuthorityOk(s')
  {
    hide Claim, Held, Early;
    var h := s.history;
    assert ClaimHeld(t, s.threads[t], h.holder, h.approvalOf);
    ClaimsMove(s.threads, h.holder, h.approvalOf, t, s'.threads[t], row.request, InApproval(approval),
               s'.history.approvalOf);
    CapabilitiesMove(s.db.capabilities, s.boot, h.holder, row.request, InApproval(approval));
    forall id <- s'.db.approvals
      ensures ApprovalHeld(id, s'.db.approvals[id], s.boot, s'.history.holder, s'.history.approvalOf)
    {
      if id != approval {
        assert ApprovalHeld(id, s.db.approvals[id], s.boot, h.holder, h.approvalOf);
      }
    }
    assert CopiesBacked(s.approvals, s'.threads, s'.db.approvals, s.boot);
  }

  lemma PublishApprovalKeeps(s: State, t: nat)
    requires AuthorityOk(s)
    ensures AuthorityOk(PublishApproval(s, t))
  {
    var s' := PublishApproval(s, t);
    if s' != s {
      QuietKeeps(s, s'.(approvals := s.approvals), t);
    }
  }

  lemma StoreDecisionKeeps(env: Env, s: State, t: nat, content: Ledger.EventContent, stored: bool)
    requires AuthorityOk(s)
    ensures AuthorityOk(StoreDecision(env, s, t, content, stored))
  {
    hide Transact, AuthorityOk;
    var s' := StoreDecision(env, s, t, content, stored);
    if s' != s {
      var p := s.threads[t];
      if Transact(env, s, Store.DecideApproval(s.db, p.approval, p.decision), content, stored).0 {
        JudgedDecides(s, t);
        ApprovalDecided(s, s', t, p.approval, p.decision, p.pending);
      } else {
        ReturnKeeps(s, t);
      }
    }
  }

  lemma JudgedDecides(s: State, t: nat)
    requires AuthorityOk(s) && t in s.threads && s.threads[t].Judged?
    ensures s.threads[t].decision != Store.Pending
  {
  }

  lemma ApprovalDecided(s: State, s': State, t: nat, approval: Id, decision: Store.Decision, pending: PendingApproval)
    requires AuthorityOk(s)
    requires t in s.threads && Held(s.threads[t]) == Some((approval, pending))
    requires approval in s.db.approvals && s.db.approvals[approval].decision == Store.Pending
    requires decision != Store.Pending
    requires t in s'.threads && s'.threads == s.threads[t := s'.threads[t]]
    requires Held(s'.threads[t]) == None && !s'.threads[t].Judged?
    requires Claim(s'.threads[t]).Some? ==> Claim(s'.threads[t]).value == pending.authorization.subject.request
                                            && !Early(s'.threads[t])
    requires Unmoved(s, s') && s'.db.capabilities == s.db.capabilities
    requires s'.db.approvals == s.db.approvals[approval := s.db.approvals[approval].(decision := decision)]
    requires s'.history.holder == s.history.holder[pending.authorization.subject.request := WithThread(t)]
    requires s'.history.approvalOf == s.history.approvalOf
    ensures AuthorityOk(s')
  {
    hide Claim, Held, Early;
    var h := s.history;
    var r := pending.authorization.subject.request;
    assert CopyBacked(s.threads[t], s.db.approvals, s.boot);
    assert ApprovalHeld(approval, s.db.approvals[approval], s.boot, h.holder, h.approvalOf);
    ClaimsMove(s.threads, h.holder, h.approvalOf, t, s'.threads[t], r, WithThread(t), h.approvalOf);
    CapabilitiesMove(s.db.capabilities, s.boot, h.holder, r, WithThread(t));
    forall id <- s'.db.approvals
      ensures ApprovalHeld(id, s'.db.approvals[id], s.boot, s'.history.holder, h.approvalOf)
    {
      assert ApprovalHeld(id, s.db.approvals[id], s.boot, h.holder, h.approvalOf);
    }
    assert CopiesBacked(s.approvals, s'.threads, s'.db.approvals, s.boot);
  }

  lemma MintRowKeeps(env: Env, s: State, t: nat, id: Id, now: int, content: Ledger.EventContent, stored: bool)
    requires AuthorityOk(s)
    ensures AuthorityOk(MintRow(env, s, t, id, now, content, stored))
  {
    hide Transact, AuthorityOk, NewCapability;
    if s.At(t) && s.threads[t].Minting? {
      var s' := MintRow(env, s, t, id, now, content, stored);
      var a := s.threads[t].authorization;
      var row := NewRow(a, s.boot);
      if Transact(env, s, Store.InsertCapability(s.db, id, row), content, stored).0 {
        CapabilityInserted(s, s', t, id, row);
      } else if s.threads[t].authority.ByApproval? {
        ReturnKeeps(s, t);
      } else {
        GotoKeeps(s, t, s'.threads[t]);
      }
    }
  }

  lemma CapabilityInserted(s: State, s': State, t: nat, id: Id, row: Store.CapabilityRow)
    requires AuthorityOk(s)
    requires row.boot == s.boot && id !in s.db.capabilities
    requires t in s.threads && Claim(s.threads[t]) == Some(row.request)
    requires t in s'.threads && s'.threads == s.threads[t := s'.threads[t]]
    requires Claim(s'.threads[t]) == None && Held(s'.threads[t]) == None && !s'.threads[t].Judged?
    requires Unmoved(s, s') && s'.db.approvals == s.db.approvals
    requires s'.db.capabilities == s.db.capabilities[id := row]
    requires s'.history.holder == s.history.holder[row.request := InCapability(id)]
    requires s'.history.approvalOf == s.history.approvalOf
    ensures AuthorityOk(s')
  {
    hide Claim, Held, Early;
    var h := s.history;
    assert ClaimHeld(t, s.threads[t], h.holder, h.approvalOf);
    ClaimsMove(s.threads, h.holder, h.approvalOf, t, s'.threads[t], row.request, InCapability(id), h.approvalOf);
    CapabilitiesMove(s.db.capabilities, s.boot, h.holder, row.request, InCapability(id));
    ApprovalsMove(s.db.approvals, s.boot, h.holder, h.approvalOf, row.request, InCapability(id));
    assert CapabilitiesHeld(s'.db.capabilities, s.boot, s'.history.holder);
    assert CopiesBacked(s.approvals, s'.threads, s.db.approvals, s.boot);
  }

  lemma RestartKeeps(s: State, signer: Ledger.Signer, policyHash: Bytes, hashRead: bool)
    requires AuthorityOk(s)
    ensures AuthorityOk(Restart(s, signer, policyHash, hashRead))
  {
    var s' := Restart(s, signer, policyHash, hashRead);
    forall id <- s'.db.capabilities
      ensures CapabilityHeld(id, s'.db.capabilities[id], s'.boot, s'.history.holder)
    {
      assert CapabilityHeld(id, s.db.capabilities[id], s.boot, s.history.holder);
    }
    forall id <- s'.db.approvals
      ensures ApprovalHeld(id, s'.db.approvals[id], s'.boot, s'.history.holder, s'.history.approvalOf)
    {
      assert ApprovalHeld(id, s.db.approvals[id], s.boot, s.history.holder, s.history.approvalOf);
    }
  }

  lemma DropApprovalKeeps(s: State, t: nat)
    requires AuthorityOk(s)
    ensures AuthorityOk(DropApproval(s, t))
  {
    hide AuthorityOk;
    if t in s.threads && s.threads[t].DecisionStored? {
      var s' := DropApproval(s, t);
      Passes(s, s'.(approvals := s.approvals), t, s'.threads[t]);
      FewerCopies(s'.(approvals := s.approvals), s');
    }
  }

  lemma FewerCopies(s: State, s': State)
    requires AuthorityOk(s) && s' == s.(approvals := s'.approvals)
    requires forall id <- s'.approvals :: id in s.approvals && s'.approvals[id] == s.approvals[id]
    ensures AuthorityOk(s')
  {
  }

  // --------------------------------------------------------------- all steps

  /** The steps that write none of the parts this invariant speaks of. */
  predicate Idle(step: Step) {
    match step
    case Ask(_, DoSubmit(_, _, _)) => false
    case Ask(_, DoStoreApproval(_, _, _)) => false
    case Ask(_, DoPublishApproval) => false
    case Decide(_, DoStoreDecision(_, _)) => false
    case Decide(_, DoDropApproval) => false
    case Issue(_, DoMintRow(_, _, _, _)) => false
    case World(DoRestart(_, _, _)) => false
    case _ => true
  }

  lemma IdleWrites(step: Step)
    requires Idle(step)
    ensures !IsRestart(step)
    ensures Written(step) !! {Fingerprints, Approvals, Holders, ApprovalIds, ApprovalRows, RowSet}
  {
  }

  lemma NothingGained(s: State, step: Step, t: nat, q: Point)
    requires Idle(step) && Leads(s, step, Was(s, t), q)
    ensures NoGain(s, t, q)
  {
    hide Leads, Idle, NoClaimGained, NoCopyGained;
    ClaimCarried(s, step, t, q);
    CopyCarried(s, step, t, q);
  }

  lemma ClaimCarried(s: State, step: Step, t: nat, q: Point)
    requires Idle(step) && Leads(s, step, Was(s, t), q)
    ensures NoClaimGained(s, t, q)
  {
    hide Leads, Idle;
    if q.Authorized? || q.Granting? || q.Touched? || q.Requesting? {
      AuthorizedClaimCarried(s, step, t, q);
    } else if q.DecisionStored? || q.Minting? {
      DecidedClaimCarried(s, step, t, q);
    } else if Claim(q).Some? {
      EarlyClaimCarried(s, step, t, q);
    }
  }

  lemma EarlyClaimCarried(s: State, step: Step, t: nat, q: Point)
    requires Idle(step) && Leads(s, step, Was(s, t), q)
    requires q.Admitted? || q.Bound? || q.Screening? || q.Screened? || q.SessionSeen? || q.Measured?
    ensures NoClaimGained(s, t, q)
  {
  }

  lemma AuthorizedClaimCarried(s: State, step: Step, t: nat, q: Point)
    requires Idle(step) && Leads(s, step, Was(s, t), q)
    requires q.Authorized? || q.Granting? || q.Touched? || q.Requesting?
    ensures NoClaimGained(s, t, q)
  {
  }

  lemma DecidedClaimCarried(s: State, step: Step, t: nat, q: Point)
    requires Idle(step) && Leads(s, step, Was(s, t), q)
    requires q.DecisionStored? || q.Minting?
    ensures NoClaimGained(s, t, q)
  {
  }

  lemma CopyCarried(s: State, step: Step, t: nat, q: Point)
    requires Idle(step) && Leads(s, step, Was(s, t), q)
    ensures NoCopyGained(s, t, q)
  {
  }

  lemma IdleKeeps(env: Env, s: State, step: Step)
    requires AuthorityOk(s) && Idle(step)
    ensures AuthorityOk(Next(env, s, step))
  {
    hide Next, Leads, NoGain, AuthorityOk, Idle, Written;
    var s' := Next(env, s, step);
    IdleWrites(step);
    StepFrame(env, s, step);
    StepMoves(env, s, step);
    match Actor(step)
    case None => QuietKeeps(s, s', 0);
    case Some(t) =>
      if s'.threads != s.threads && s'.threads != s.threads - {t} {
        NothingGained(s, step, t, s'.threads[t]);
      }
      QuietKeeps(s, s', t);
  }

  lemma StepKeeps(env: Env, s: State, step: Step)
    requires AuthorityOk(s)
    ensures AuthorityOk(Next(env, s, step))
  {
    hide AuthorityOk, Submit, StoreApproval, PublishApproval, StoreDecision, DropApproval, MintRow, Restart;
    match step
    case Ask(t, DoSubmit(request, agent, fingerprint)) => SubmitKeeps(s, t, request, agent, fingerprint);
    case Ask(t, DoStoreApproval(approval, content, stored)) =>
      StoreApprovalKeeps(env, s, t, approval, content, stored);
    case Ask(t, DoPublishApproval) => PublishApprovalKeeps(s, t);
    case Decide(t, DoStoreDecision(content, stored)) => StoreDecisionKeeps(env, s, t, content, stored);
    case Decide(t, DoDropApproval) => DropApprovalKeeps(s, t);
    case Issue(t, DoMintRow(id, now, content, stored)) => MintRowKeeps(env, s, t, id, now, content, stored);
    case World(DoRestart(signer, policyHash, hashRead)) => RestartKeeps(s, signer, policyHash, hashRead);
    case _ => IdleKeeps(env, s, step);
  }

  // ----------------------------------------------------------------- results

  /** Among the rows one broker process wrote, a request id occurs once. */
  ghost predicate OneEach(db: Store.Tables) {
    && (forall a <- db.capabilities, b <- db.capabilities ::
          db.capabilities[a].request == db.capabilities[b].request && db.capabilities[a].boot == db.capabilities[b].boot
          ==> a == b)
    && (forall a <- db.approvals, b <- db.approvals ::
          db.approvals[a].request == db.approvals[b].request && db.approvals[a].boot == db.approvals[b].boot ==> a == b)
  }

  ghost predicate NewRowsBy(db: Store.Tables, next: Store.Tables, boot: nat) {
    && (forall a <- next.capabilities ::
          || next.capabilities[a].boot == boot
          || (a in db.capabilities && next.capabilities[a].request == db.capabilities[a].request
              && next.capabilities[a].boot == db.capabilities[a].boot))
    && (forall a <- next.approvals ::
          || next.approvals[a].boot == boot
          || (a in db.approvals && next.approvals[a].request == db.approvals[a].request
              && next.approvals[a].boot == db.approvals[a].boot))
  }

  predicate Dated(op: Store.Op, boot: nat) {
    (op.OpInsertCapability? ==> op.boot == boot) && (op.OpInsertApproval? ==> op.boot == boot)
  }

  lemma OpDates(db: Store.Tables, op: Store.Op, boot: nat)
    requires Dated(op, boot)
    ensures NewRowsBy(db, Store.Apply(db, op), boot)
  {
  }

  lemma TransactionDated(s: State, step: Step)
    ensures Transaction(s, step).Some? ==>
              Dated(Transaction(s, step).value, s.boot)
              && (step.World? && step.world.DoRestart? ==> Transaction(s, step).value == Store.OpRecover)
  {
  }

  lemma NewRowsAreNew(db: Store.Tables, s: State)
    requires OneEach(db) && NewRowsBy(db, s.db, s.boot) && AuthorityOk(s)
    ensures OneEach(s.db)
  {
  }

  lemma OneEachStep(env: Env, s: State, step: Step)
    requires AuthorityOk(s) && OneEach(s.db)
    ensures AuthorityOk(Next(env, s, step)) && OneEach(Next(env, s, step).db)
  {
    hide Next, Transaction, Store.Apply, AuthorityOk, OneEach;
    var s' := Next(env, s, step);
    StepKeeps(env, s, step);
    StepDb(env, s, step);
    StepBoot(env, s, step);
    TransactionDated(s, step);
    if Transaction(s, step).Some? {
      OpDates(s.db, Transaction(s, step).value, s'.boot);
    }
    NewRowsAreNew(s.db, s');
  }

  lemma {:induction false} RunKeeps(env: Env, s: State, steps: seq<Step>)
    requires AuthorityOk(s) && OneEach(s.db)
    ensures AuthorityOk(Run(env, s, steps)) && OneEach(Run(env, s, steps).db)
    decreases |steps|
  {
    hide Next, AuthorityOk, OneEach;
    if steps != [] {
      OneEachStep(env, s, steps[0]);
      RunKeeps(env, Next(env, s, steps[0]), steps[1..]);
    }
  }

  /** From an empty store, in every interleaving of any handlers, with restarts
      anywhere: a request id leads to at most one approval and to at most one
      capability in the lifetime of one broker process. */
  lemma OneApprovalOneCapability(env: Env, signer: Ledger.Signer, policyHash: Bytes, steps: seq<Step>)
    ensures OneEach(Run(env, Initial(signer, policyHash), steps).db)
  {
    hide Run, Audit.Genesis;
    RunKeeps(env, Initial(signer, policyHash), steps);
  }
}
