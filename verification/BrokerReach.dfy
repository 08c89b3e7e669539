/** Small facts about every state a broker can get to: who is known, where the
    sequence numbers are, and that nothing gets past the first audit record in a
    process whose audit key is unusable. */
module BrokerReach {
  import opened ByteStrings
  import opened Wrappers
  import opened Domain
  import opened Broker
  import opened BrokerFrame
  import Audit
  import BrokerAuthority
  import BrokerBinding
  import BrokerDurable
  import Ledger
  import Store

  // ------------------------------------------------------------ known agents

  ghost predicate AgentsKnown(s: State) {
    && s.requestAgents.Keys <= s.fingerprints.Keys
    && forall t <- s.threads :: s.threads[t].Admitted? ==> s.threads[t].request in s.fingerprints
  }

  predicate AgentsIdle(step: Step) {
    match step
    case Ask(_, DoSubmit(_, _, _)) => false
    case Ask(_, DoBindAgent) => false
    case World(DoRestart(_, _, _)) => false
    case _ => true
  }

  lemma AgentsIdleWrites(step: Step)
    requires AgentsIdle(step)
    ensures !IsRestart(step) && Written(step) !! {Fingerprints, Agents}
  {
  }

  lemma NoneAdmitted(s: State, step: Step, t: nat, q: Point)
    requires AgentsIdle(step) && Leads(s, step, Was(s, t), q)
    ensures !q.Admitted?
  {
  }

  lemma AgentsStep(env: Env, s: State, step: Step)
    requires AgentsKnown(s)
    ensures AgentsKnown(Next(env, s, step))
  {
    hide Submit, BindAgent, Restart, AgentsKnown;
    match step
    case Ask(t, DoSubmit(request, agent, fingerprint)) => SubmitKnown(s, t, request, agent, fingerprint);
    case Ask(t, DoBindAgent) => BindAgentKnown(s, t);
    case World(DoRestart(signer, policyHash, hashRead)) => RestartKnown(s, signer, policyHash, hashRead);
    case _ => AgentsIdleStep(env, s, step);
  }

  lemma SubmitKnown(s: State, t: nat, request: Id, agent: Id, fingerprint: Bytes)
    requires AgentsKnown(s)
    ensures AgentsKnown(Submit(s, t, request, agent, fingerprint))
  {
  }

  lemma BindAgentKnown(s: State, t: nat)
    requires AgentsKnown(s)
    ensures AgentsKnown(BindAgent(s, t))
  {
  }

  lemma RestartKnown(s: State, signer: Ledger.Signer, policyHash: Bytes, hashRead: bool)
    ensures AgentsKnown(Restart(s, signer, policyHash, hashRead))
    ensures OAuthKnown(Restart(s, signer, policyHash, hashRead))
  {
    hide Ledger.Reopen, Store.Recover;
  }

  lemma AgentsIdleStep(env: Env, s: State, step: Step)
    requires AgentsKnown(s) && AgentsIdle(step)
    ensures AgentsKnown(Next(env, s, step))
  {
    hide Next, Leads, AgentsIdle, Written;
    var s' := Next(env, s, step);
    AgentsIdleWrites(step);
    StepFrame(env, s, step);
    StepMoves(env, s, step);
    match Actor(step)
    case None =>
    case Some(t) =>
      if s'.threads != s.threads && s'.threads != s.threads - {t} {
        NoneAdmitted(s, step, t, s'.threads[t]);
      }
  }

  // ------------------------------------------------------------- known flows

  /** An OAuth flow belongs to an entry. */
  ghost predicate OAuthKnown(s: State) {
    s.oauth.Keys <= s.capabilities.Keys
  }

  predicate OAuthIdle(step: Step) {
    match step
    case Issue(_, DoPublishCapability) => false
    case Poll(_, DoInspectOffer(_, _)) => false
    case Consume(_, DoWriteBack) => false
    case Callback(_, DoTakeOAuth(_, _)) => false
    case World(DoRestart(_, _, _)) => false
    case _ => true
  }

  lemma OAuthIdleWrites(step: Step)
    requires OAuthIdle(step)
    ensures !IsRestart(step) && Written(step) !! {EntrySet, Part.OAuth}
  {
  }

  lemma InspectOfferKnown(s: State, t: nat, now: int, recipeUsable: bool)
    requires OAuthKnown(s)
    ensures OAuthKnown(InspectOffer(s, t, now, recipeUsable))
  {
  }

  lemma OAuthStep(env: Env, s: State, step: Step)
    requires OAuthKnown(s)
    ensures OAuthKnown(Next(env, s, step))
  {
    hide OAuthKnown, PublishCapability, InspectOffer, WriteBack, TakeOAuth, Restart;
    match step
    case Issue(t, DoPublishCapability) => PublishKnown(s, t);
    case Poll(t, DoInspectOffer(now, recipeUsable)) => InspectOfferKnown(s, t, now, recipeUsable);
    case Consume(t, DoWriteBack) => WriteBackKnown(s, t);
    case Callback(t, DoTakeOAuth(session, tab)) => TakeOAuthKnown(s, t, session, tab);
    case World(DoRestart(signer, policyHash, hashRead)) => RestartKnown(s, signer, policyHash, hashRead);
    case _ => OAuthIdleStep(env, s, step);
  }

  lemma PublishKnown(s: State, t: nat)
    requires OAuthKnown(s)
    ensures OAuthKnown(PublishCapability(s, t))
  {
  }

  lemma WriteBackKnown(s: State, t: nat)
    requires OAuthKnown(s)
    ensures OAuthKnown(WriteBack(s, t))
  {
  }

  lemma TakeOAuthKnown(s: State, t: nat, session: Id, tab: nat)
    requires OAuthKnown(s)
    ensures OAuthKnown(TakeOAuth(s, t, session, tab))
  {
  }

  lemma OAuthIdleStep(env: Env, s: State, step: Step)
    requires OAuthKnown(s) && OAuthIdle(step)
    ensures OAuthKnown(Next(env, s, step))
  {
    hide Next, Written, OAuthIdle;
    OAuthIdleWrites(step);
    StepFrame(env, s, step);
  }

  // ------------------------------------------------------------------ the log

  /** The audit key can be used at all. */
  predicate KeyWorks(l: Ledger.Log) {
    l.signer.version != 0 && |l.signer.key| >= Audit.MIN_KEY_BYTES
  }

  ghost predicate SequencesBelow(l: Ledger.Log) {
    forall i :: 0 <= i < |l.events| ==> l.events[i].sequence < l.nextSequence
  }

  lemma LogGrows(crypto: Audit.Crypto, l: Ledger.Log, op: Ledger.LogOp)
    requires SequencesBelow(l) && !op.Open?
    ensures SequencesBelow(Ledger.Apply(crypto, l, op)) && Ledger.Apply(crypto, l, op).signer == l.signer
  {
    hide Audit.ComputeEventHash, Audit.CheckpointMessage;
  }

  lemma ReopenBelow(l: Ledger.Log, signer: Ledger.Signer, hashRead: bool)
    ensures SequencesBelow(Ledger.Reopen(l, signer, hashRead))
  {
  }

  lemma RestartBelow(s: State, signer: Ledger.Signer, policyHash: Bytes, hashRead: bool)
    ensures SequencesBelow(Restart(s, signer, policyHash, hashRead).log)
  {
    hide Ledger.Reopen, SequencesBelow;
    ReopenBelow(s.log, signer, hashRead);
  }

  lemma LogStepBelow(env: Env, s: State, s': State)
    requires SequencesBelow(s.log) && BrokerDurable.LogStep(env, s, s')
    ensures SequencesBelow(s'.log) && s'.log.signer == s.log.signer
  {
    hide Ledger.Apply;
    if s'.log != s.log {
      var op: Ledger.LogOp :| !op.Open? && s'.log == Ledger.Apply(env.crypto, s.log, op);
      LogGrows(env.crypto, s.log, op);
    }
  }

  lemma BelowStep(env: Env, s: State, step: Step)
    requires SequencesBelow(s.log)
    ensures SequencesBelow(Next(env, s, step).log)
    ensures !IsRestart(step) ==> Next(env, s, step).log.signer == s.log.signer
  {
    hide Next, SequencesBelow, BrokerDurable.LogStep;
    if IsRestart(step) {
      RestartIs(env, s, step.world);
      RestartBelow(s, step.world.signer, step.world.policyHash, step.world.hashRead);
    } else {
      BrokerDurable.StepLog(env, s, step);
      LogStepBelow(env, s, Next(env, s, step));
    }
  }

  lemma RestartIs(env: Env, s: State, world: WorldStep)
    requires world.DoRestart?
    ensures Next(env, s, World(world)) == Restart(s, world.signer, world.policyHash, world.hashRead)
  {
    hide Restart;
  }

  /** Nothing is appended without a usable key. */
  lemma AppendNeedsKey(crypto: Audit.Crypto, l: Ledger.Log, content: Ledger.EventContent, stored: bool)
    ensures Ledger.CreateEvent(crypto, l, content).Some? ==> KeyWorks(l)
    ensures Ledger.Append(crypto, l, content, stored).1 ==> KeyWorks(l)
  {
  }

  // --------------------------------------------------------------- vouched for

  /** Points that are reached only after something has been recorded. */
  predicate Vouched(p: Point) {
    || p.Screened? || p.SessionSeen? || p.Measured? || AuthorizationOf(p).Some?
    || p.RowMinted? || p.EntryMinted? || p.Verified? || p.RowConsumed? || p.EntryConsumed? || p.Releasing?
    || p.Finishing? || p.RowFinished? || p.RowsRevoked? || p.PolicyReplaced? || p.RowRevoked?
    || p.OAuthFound? || p.OAuthTaken? || p.OAuthSpent?
  }

  /** A process in which nothing has been recorded. */
  ghost predicate Bare(s: State) {
    && s.approvals == map[] && s.capabilities == map[] && s.executions == map[] && s.oauth == map[]
    && forall t <- s.threads :: !Vouched(s.threads[t])
  }

  predicate BareIdle(step: Step) {
    match step
    case Ask(_, DoRecordRequested(_, _)) => false
    case Ask(_, DoPublishApproval) => false
    case Decide(_, DoDropApproval) => false
    case Issue(_, DoPublishCapability) => false
    case Poll(_, DoInspectOffer(_, _)) => false
    case Consume(_, DoWriteBack) => false
    case Consume(_, DoTrackExecution) => false
    case Finish(_, DoWriteExecution) => false
    case Withdraw(_, DoReloadRows(_, _, _)) => false
    case Withdraw(_, DoRevokeRow(_, _, _)) => false
    case Callback(_, DoTakeOAuth(_, _)) => false
    case World(DoRestart(_, _, _)) => false
    case _ => true
  }

  lemma BareIdleWrites(step: Step)
    requires BareIdle(step)
    ensures !IsRestart(step) && Written(step) !! {Approvals, EntrySet, Part.Executions, Part.OAuth}
  {
  }

  lemma NotVouched(s: State, step: Step, t: nat, q: Point)
    requires Bare(s) && BareIdle(step) && Leads(s, step, Was(s, t), q)
    ensures !Vouched(q)
  {
    hide Leads, BareIdle, Bare;
    if AuthorizationOf(q).Some? {
      NoneAuthorized(s, step, t, q);
    } else {
      NoneElse(s, step, t, q);
    }
  }

  lemma NoneAuthorized(s: State, step: Step, t: nat, q: Point)
    requires Bare(s) && BareIdle(step) && Leads(s, step, Was(s, t), q)
    ensures AuthorizationOf(q) == None
  {
    hide PendingFor, Covering, Convincing;
  }

  lemma NoneElse(s: State, step: Step, t: nat, q: Point)
    requires Bare(s) && BareIdle(step) && Leads(s, step, Was(s, t), q) && AuthorizationOf(q) == None
    ensures !Vouched(q)
  {
    hide Cleared;
  }

  lemma BareIdleStep(env: Env, s: State, step: Step)
    requires Bare(s) && BareIdle(step)
    ensures Bare(Next(env, s, step))
  {
    hide Next, Leads, BareIdle, Written, Vouched;
    var s' := Next(env, s, step);
    BareIdleWrites(step);
    StepFrame(env, s, step);
    StepMoves(env, s, step);
    match Actor(step)
    case None =>
    case Some(t) =>
      if s'.threads != s.threads && s'.threads != s.threads - {t} {
        NotVouched(s, step, t, s'.threads[t]);
      }
  }

  lemma RecordRequestedBare(env: Env, s: State, t: nat, content: Ledger.EventContent, stored: bool)
    requires Bare(s) && !KeyWorks(s.log)
    ensures Bare(RecordRequested(env, s, t, content, stored))
  {
    hide Ledger.Append;
    AppendNeedsKey(env.crypto, s.log, content, stored);
  }

  lemma InspectOfferBare(s: State, t: nat, now: int, recipeUsable: bool)
    requires Bare(s)
    ensures Bare(InspectOffer(s, t, now, recipeUsable))
  {
  }

  lemma ReloadRowsBare(env: Env, s: State, t: nat, hash: Bytes, content: Ledger.EventContent, stored: bool)
    requires Bare(s) && !KeyWorks(s.log)
    ensures Bare(ReloadRows(env, s, t, hash, content, stored))
  {
    hide Ledger.Append, Store.RevokeOtherPolicies;
    AppendNeedsKey(env.crypto, s.log, content, stored);
  }

  lemma RevokeRowBare(env: Env, s: State, t: nat, id: Id, content: Ledger.EventContent, stored: bool)
    requires Bare(s) && !KeyWorks(s.log)
    ensures Bare(RevokeRow(env, s, t, id, content, stored))
  {
    hide Ledger.Append, Store.RevokeCapability;
    AppendNeedsKey(env.crypto, s.log, content, stored && Store.RevokeCapability(s.db, id).Some?);
  }

  /** The other loud steps need a thread that nothing vouches for here. */
  lemma NothingToDo(env: Env, s: State, step: Step)
    requires Bare(s)
    requires match step
             case Ask(_, DoPublishApproval) => true
             case Decide(_, DoDropApproval) => true
             case Issue(_, DoPublishCapability) => true
             case Consume(_, DoWriteBack) => true
             case Consume(_, DoTrackExecution) => true
             case Finish(_, DoWriteExecution) => true
             case Callback(_, DoTakeOAuth(_, _)) => true
             case _ => false
    ensures Next(env, s, step) == s
  {
    match step
    case Ask(_, DoPublishApproval) =>
    case Decide(_, DoDropApproval) =>
    case Issue(_, DoPublishCapability) =>
    case Consume(_, DoWriteBack) =>
    case Consume(_, DoTrackExecution) =>
    case Finish(_, DoWriteExecution) =>
    case Callback(_, DoTakeOAuth(_, _)) =>
  }

  lemma BareStep(env: Env, s: State, step: Step)
    requires Bare(s) && !KeyWorks(s.log) && !IsRestart(step)
    ensures Bare(Next(env, s, step))
  {
    hide Bare, KeyWorks, RecordRequested, PublishApproval, DropApproval, PublishCapability, InspectOffer, WriteBack,
         TrackExecution, WriteExecution, ReloadRows, RevokeRow, TakeOAuth;
    match step
    case Ask(t, DoRecordRequested(content, stored)) => RecordRequestedBare(env, s, t, content, stored);
    case Poll(t, DoInspectOffer(now, recipeUsable)) => InspectOfferBare(s, t, now, recipeUsable);
    case Withdraw(t, DoReloadRows(hash, content, stored)) => ReloadRowsBare(env, s, t, hash, content, stored);
    case Withdraw(t, DoRevokeRow(id, content, stored)) => RevokeRowBare(env, s, t, id, content, stored);
    case Ask(_, DoPublishApproval) => NothingToDo(env, s, step);
    case Decide(_, DoDropApproval) => NothingToDo(env, s, step);
    case Issue(_, DoPublishCapability) => NothingToDo(env, s, step);
    case Consume(_, DoWriteBack) => NothingToDo(env, s, step);
    case Consume(_, DoTrackExecution) => NothingToDo(env, s, step);
    case Finish(_, DoWriteExecution) => NothingToDo(env, s, step);
    case Callback(_, DoTakeOAuth(_, _)) => NothingToDo(env, s, step);
    case _ => BareIdleStep(env, s, step);
  }

  lemma RestartBare(s: State, signer: Ledger.Signer, policyHash: Bytes, hashRead: bool)
    ensures Bare(Restart(s, signer, policyHash, hashRead))
  {
    hide Ledger.Reopen, Store.Recover;
  }

  // ---------------------------------------------------------------- all of it

  /** What the exact results below need to know of a state. */
  ghost predicate Grounded(s: State) {
    && AgentsKnown(s) && OAuthKnown(s) && SequencesBelow(s.log) && (!KeyWorks(s.log) ==> Bare(s))
    && BrokerAuthority.AuthorityOk(s) && BrokerBinding.BindingsOk(s)
    && Store.Sound(s.db) && Store.LiveUnused(s.db)
  }

  lemma GroundedStep(env: Env, s: State, step: Step)
    requires Grounded(s)
    ensures Grounded(Next(env, s, step))
  {
    hide Next, AgentsKnown, OAuthKnown, SequencesBelow, KeyWorks, Bare, BrokerAuthority.AuthorityOk,
         BrokerBinding.BindingsOk, Store.Sound, Store.LiveUnused, BrokerDurable.Transaction, Store.Apply;
    AgentsStep(env, s, step);
    OAuthStep(env, s, step);
    BelowStep(env, s, step);
    KeyStep(env, s, step);
    BrokerAuthority.StepKeeps(env, s, step);
    BrokerBinding.StepKeeps(env, s, step);
    BrokerDurable.SoundStep(env, s, step);
    BrokerDurable.StepDb(env, s, step);
    if BrokerDurable.Transaction(s, step).Some? {
      Store.ApplyKeepsUnused(s.db, BrokerDurable.Transaction(s, step).value);
    }
  }

  lemma KeyStep(env: Env, s: State, step: Step)
    requires SequencesBelow(s.log) && (!KeyWorks(s.log) ==> Bare(s))
    ensures !KeyWorks(Next(env, s, step).log) ==> Bare(Next(env, s, step))
  {
    hide Next, SequencesBelow, Bare;
    if IsRestart(step) {
      RestartIs(env, s, step.world);
      RestartBare(s, step.world.signer, step.world.policyHash, step.world.hashRead);
    } else {
      BelowStep(env, s, step);
      if !KeyWorks(s.log) {
        BareStep(env, s, step);
      }
    }
  }

  lemma {:induction false} GroundedRun(env: Env, s: State, steps: seq<Step>)
    requires Grounded(s)
    ensures Grounded(Run(env, s, steps))
    decreases |steps|
  {
    hide Next, Grounded;
    if steps != [] {
      GroundedStep(env, s, steps[0]);
      GroundedRun(env, Next(env, s, steps[0]), steps[1..]);
    }
  }

  lemma InitialIsGrounded(signer: Ledger.Signer, policyHash: Bytes)
    ensures Grounded(Initial(signer, policyHash))
  {
    hide Audit.Genesis;
  }

  lemma ReachedIsGrounded(env: Env, signer: Ledger.Signer, policyHash: Bytes, past: seq<Step>)
    ensures Grounded(Run(env, Initial(signer, policyHash), past))
  {
    hide Run, Grounded, Initial;
    InitialIsGrounded(signer, policyHash);
    GroundedRun(env, Initial(signer, policyHash), past);
  }
}
