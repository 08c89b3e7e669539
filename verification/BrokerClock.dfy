/** The order of things in time. The clock is the environment's and may jump;
    as long as it does not go backwards, a capability is issued after the
    position was measured and, if a human had to agree, after they did. */
module BrokerClock {
  import opened ByteStrings
  import opened Wrappers
  import opened Domain
  import opened Broker
  import opened BrokerFrame
  import Audit
  import Ledger
  import Store

  /** The readings of the clock that end up in a mint. */
  function Reading(step: Step): Option<int> {
    match step
    case Ask(_, DoMarkRequested(now)) => Some(now)
    case Decide(_, DoJudge(_, _, _, now)) => Some(now)
    case Issue(_, DoMintRow(_, now, _, _)) => Some(now)
    case _ => None
  }

  function After(last: int, step: Step): int {
    match Reading(step)
    case None => last
    case Some(now) => now
  }

  /** No reading is earlier than the one before it. */
  ghost predicate Forward(last: int, steps: seq<Step>)
    decreases |steps|
  {
    steps != [] ==> last <= After(last, steps[0]) && Forward(After(last, steps[0]), steps[1..])
  }

  predicate VerdictTimely(a: Authorization, v: Verdict, last: int) {
    a.measurement.at <= v.at <= last
  }

  predicate PointTimely(p: Point, last: int) {
    match p
    case Screening(_, _, at) => at <= last
    case Screened(_, _, at) => at <= last
    case SessionSeen(_, _, at, _, _) => at <= last
    case Measured(_, _, _, m) => m.at <= last
    case Judged(_, pending, _, v) => VerdictTimely(pending.authorization, v, last)
    case DecisionStored(_, pending, _, v) => VerdictTimely(pending.authorization, v, last)
    case Minting(a, ByApproval(v)) => VerdictTimely(a, v, last)
    case _ => AuthorizationOf(p).Some? ==> AuthorizationOf(p).value.measurement.at <= last
  }

  /** Measured, then agreed to if need be, then issued. */
  predicate MintTimely(m: Mint, last: int) {
    && m.authorization.measurement.at <= m.terms.issuedAt <= last
    && match m.authority
       case ByApproval(v) => m.authorization.measurement.at <= v.at <= m.terms.issuedAt
       case _ => true
  }

  ghost predicate PointsTimely(threads: map<nat, Point>, last: int) {
    forall t <- threads :: PointTimely(threads[t], last)
  }

  ghost predicate ApprovalsTimely(approvals: map<Id, PendingApproval>, last: int) {
    forall id <- approvals :: approvals[id].authorization.measurement.at <= last
  }

  ghost predicate MintsTimely(mints: map<Id, Mint>, last: int) {
    forall id <- mints :: MintTimely(mints[id], last)
  }

  ghost predicate TimelyOk(s: State, last: int) {
    PointsTimely(s.threads, last) && ApprovalsTimely(s.approvals, last) && MintsTimely(s.history.mints, last)
  }

  /** Only a thread moves, in order, and time goes on. */
  lemma QuietKeeps(s: State, s': State, t: nat, last: int, next: int)
    requires TimelyOk(s, last) && last <= next
    requires ApprovalsTimely(s'.approvals, next) && MintsTimely(s'.history.mints, next)
    requires s'.threads == s.threads || s'.threads == s.threads - {t}
             || (t in s'.threads && s'.threads == s.threads[t := s'.threads[t]] && PointTimely(s'.threads[t], next))
    ensures TimelyOk(s', next)
  {
    forall u <- s'.threads
      ensures PointTimely(s'.threads[u], next)
    {
      assert u in s.threads ==> PointTimely(s.threads[u], last);
    }
  }

  lemma LaterIsFine(s: State, last: int, next: int)
    requires TimelyOk(s, last) && last <= next
    ensures ApprovalsTimely(s.approvals, next) && MintsTimely(s.history.mints, next)
  {
    forall id <- s.history.mints
      ensures MintTimely(s.history.mints[id], next)
    {
      assert MintTimely(s.history.mints[id], last);
    }
  }

  lemma PointIs(s: State, t: nat, last: int)
    requires TimelyOk(s, last) && t in s.threads
    ensures PointTimely(s.threads[t], last)
  {
  }

  // -------------------------------------------------------------- loud steps

  lemma ApprovalAdded(approvals: map<Id, PendingApproval>, id: Id, pending: PendingApproval, last: int)
    requires ApprovalsTimely(approvals, last) && pending.authorization.measurement.at <= last
    ensures ApprovalsTimely(approvals[id := pending], last)
  {
  }

  lemma ApprovalDropped(approvals: map<Id, PendingApproval>, id: Id, last: int)
    requires ApprovalsTimely(approvals, last)
    ensures ApprovalsTimely(approvals - {id}, last)
  {
  }

  /** Approvals change, and the thread goes to `q`. */
  lemma Passes(s: State, s': State, t: nat, q: Point, last: int)
    requires TimelyOk(s, last) && s'.threads == s.threads[t := q] && PointTimely(q, last)
    requires ApprovalsTimely(s'.approvals, last) && s'.history.mints == s.history.mints
    ensures TimelyOk(s', last)
  {
    hide TimelyOk, MintsTimely, ApprovalsTimely, PointTimely;
    LaterIsFine(s, last, last);
    QuietKeeps(s, s', t, last, last);
  }

  lemma PublishApprovalKeeps(s: State, t: nat, last: int)
    requires TimelyOk(s, last)
    ensures TimelyOk(PublishApproval(s, t), last)
  {
    hide TimelyOk, ApprovalsTimely;
    if t in s.threads && s.threads[t].ApprovalStored? {
      PointIs(s, t, last);
      ApprovalsAre(s, last);
      var p := s.threads[t];
      ApprovalAdded(s.approvals, p.approval, p.pending, last);
      Passes(s, PublishApproval(s, t), t, Reporting(p.pending.authorization.subject.request, AwaitingApproval, true),
             last);
    }
  }

  lemma DropApprovalKeeps(s: State, t: nat, last: int)
    requires TimelyOk(s, last)
    ensures TimelyOk(DropApproval(s, t), last)
  {
    hide TimelyOk, ApprovalsTimely, PointTimely, AfterDecision;
    if t in s.threads && s.threads[t].DecisionStored? {
      PointIs(s, t, last);
      ApprovalsAre(s, last);
      ApprovalDropped(s.approvals, s.threads[t].approval, last);
      Dropped(s, t, last);
      Passes(s, DropApproval(s, t), t, AfterDecision(s.threads[t]), last);
    }
  }

  function AfterDecision(p: Point): Point
    requires p.DecisionStored?
  {
    if p.decision == Store.Decision.Approved then Minting(p.pending.authorization, ByApproval(p.verdict))
    else Reporting(p.pending.authorization.subject.request, Refusal(p.decision), true)
  }

  lemma Dropped(s: State, t: nat, last: int)
    requires t in s.threads && s.threads[t].DecisionStored? && PointTimely(s.threads[t], last)
    ensures var s' := DropApproval(s, t);
            && s'.threads == s.threads[t := AfterDecision(s.threads[t])]
            && s'.approvals == s.approvals - {s.threads[t].approval}
            && PointTimely(AfterDecision(s.threads[t]), last)
  {
  }

  lemma MintRowKeeps(
    env: Env, s: State, t: nat, id: Id, now: int, content: Ledger.EventContent, stored: bool, last: int)
    requires TimelyOk(s, last) && last <= now
    ensures TimelyOk(MintRow(env, s, t, id, now, content, stored), now)
  {
    hide Transact, NewRow, TimelyOk, MintsTimely, NewCapability;
    LaterIsFine(s, last, now);
    var s' := MintRow(env, s, t, id, now, content, stored);
    if t in s.threads && s.threads[t].Minting? {
      PointIs(s, t, last);
      IssuedNow(s.threads[t], id, now, last);
      MintAdded(s.history.mints, id, MintOf(s.threads[t], id, now), now);
    }
    QuietKeeps(s, s', t, last, now);
  }

  lemma IssuedNow(p: Point, id: Id, now: int, last: int)
    requires p.Minting? && PointTimely(p, last) && last <= now
    ensures MintTimely(MintOf(p, id, now), now)
  {
  }

  lemma MintAdded(mints: map<Id, Mint>, id: Id, m: Mint, last: int)
    requires MintsTimely(mints, last) && MintTimely(m, last)
    ensures MintsTimely(mints[id := m], last)
  {
  }

  lemma RestartKeeps(s: State, signer: Ledger.Signer, policyHash: Bytes, hashRead: bool, last: int)
    requires TimelyOk(s, last)
    ensures TimelyOk(Restart(s, signer, policyHash, hashRead), last)
  {
    hide Ledger.Reopen, Store.Recover;
  }

  // --------------------------------------------------------------- all steps

  /** The steps that write neither approvals nor mints. */
  predicate Idle(step: Step) {
    match step
    case Ask(_, DoPublishApproval) => false
    case Decide(_, DoDropApproval) => false
    case Issue(_, DoMintRow(_, _, _, _)) => false
    case World(DoRestart(_, _, _)) => false
    case _ => true
  }

  lemma IdleWrites(step: Step)
    requires Idle(step)
    ensures !IsRestart(step) && Written(step) !! {Approvals, Part.Mints}
  {
  }

  lemma PointCarried(s: State, step: Step, t: nat, q: Point, last: int)
    requires TimelyOk(s, last) && Idle(step) && Leads(s, step, Was(s, t), q) && last <= After(last, step)
    ensures PointTimely(q, After(last, step))
  {
    hide Leads, TimelyOk, Idle, PointTimely, After;
    if t in s.threads {
      PointIs(s, t, last);
    }
    if AuthorizationOf(q).Some? {
      ApprovalsAre(s, last);
      AuthorizationCarried(s, step, t, q, last);
    } else {
      OthersCarried(s, step, t, q, last);
    }
  }

  lemma ApprovalsAre(s: State, last: int)
    requires TimelyOk(s, last)
    ensures ApprovalsTimely(s.approvals, last)
  {
  }

  lemma AuthorizationCarried(s: State, step: Step, t: nat, q: Point, last: int)
    requires ApprovalsTimely(s.approvals, last) && (t in s.threads ==> PointTimely(s.threads[t], last))
    requires Idle(step) && Leads(s, step, Was(s, t), q) && last <= After(last, step) && AuthorizationOf(q).Some?
    ensures PointTimely(q, After(last, step))
  {
    hide Covering, Convincing, PendingFor;
  }

  lemma OthersCarried(s: State, step: Step, t: nat, q: Point, last: int)
    requires t in s.threads ==> PointTimely(s.threads[t], last)
    requires Idle(step) && Leads(s, step, Was(s, t), q) && last <= After(last, step) && AuthorizationOf(q) == None
    ensures PointTimely(q, After(last, step))
  {
  }

  lemma IdleKeeps(env: Env, s: State, step: Step, last: int)
    requires TimelyOk(s, last) && Idle(step) && last <= After(last, step)
    ensures TimelyOk(Next(env, s, step), After(last, step))
  {
    hide Next, Leads, PointTimely, TimelyOk, Idle, Written, After, ApprovalsTimely, MintsTimely;
    var s' := Next(env, s, step);
    IdleWrites(step);
    StepFrame(env, s, step);
    StepMoves(env, s, step);
    LaterIsFine(s, last, After(last, step));
    match Actor(step)
    case None => QuietKeeps(s, s', 0, last, After(last, step));
    case Some(t) =>
      if s'.threads != s.threads && s'.threads != s.threads - {t} {
        PointCarried(s, step, t, s'.threads[t], last);
      }
      QuietKeeps(s, s', t, last, After(last, step));
  }

  lemma StepKeeps(env: Env, s: State, step: Step, last: int)
    requires TimelyOk(s, last) && last <= After(last, step)
    ensures TimelyOk(Next(env, s, step), After(last, step))
  {
    hide TimelyOk, PublishApproval, DropApproval, MintRow, Restart;
    match step
    case Ask(t, DoPublishApproval) => PublishApprovalKeeps(s, t, last);
    case Decide(t, DoDropApproval) => DropApprovalKeeps(s, t, last);
    case Issue(t, DoMintRow(id, now, content, stored)) => MintRowKeeps(env, s, t, id, now, content, stored, last);
    case World(DoRestart(signer, policyHash, hashRead)) => RestartKeeps(s, signer, policyHash, hashRead, last);
    case _ => IdleKeeps(env, s, step, last);
  }

  function Last(last: int, steps: seq<Step>): int
    decreases |steps|
  {
    if steps == [] then last else Last(After(last, steps[0]), steps[1..])
  }

  lemma {:induction false} RunKeeps(env: Env, s: State, steps: seq<Step>, last: int)
    requires TimelyOk(s, last) && Forward(last, steps)
    ensures TimelyOk(Run(env, s, steps), Last(last, steps))
    decreases |steps|
  {
    hide Next, TimelyOk, After;
    if steps != [] {
      StepKeeps(env, s, steps[0], last);
      RunKeeps(env, Next(env, s, steps[0]), steps[1..], After(last, steps[0]));
    }
  }

  /** On a clock that does not go backwards, in every interleaving and across
      restarts: every capability was issued no earlier than its position was
      measured, and a human who agreed to it did so in between. */
  lemma EveryMintIsTimely(
    env: Env, signer: Ledger.Signer, policyHash: Bytes, steps: seq<Step>, start: int)
    requires Forward(start, steps)
    ensures MintsTimely(Run(env, Initial(signer, policyHash), steps).history.mints, Last(start, steps))
  {
    hide Run, Audit.Genesis, Forward, Last;
    RunKeeps(env, Initial(signer, policyHash), steps, start);
  }
}
