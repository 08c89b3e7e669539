/** What a run of the broker does to the store and to the audit log: one step
    commits at most one transaction and at most one record, so whatever every
    run of the store or of the log keeps, every run of the broker keeps. */
module BrokerDurable {
  import opened ByteStrings
  import opened Wrappers
  import opened Domain
  import opened Broker
  import opened BrokerFrame
  import Audit
  import Grants
  import Ledger
  import Store

  /** The transaction a step tries to commit. */
  function Transaction(s: State, step: Step): Option<Store.Op> {
    match step
    case World(DoRestart(_, _, _)) => Some(Store.OpRecover)
    case Withdraw(t, DoReloadRows(hash, _, _)) =>
      if t in s.threads then None else Some(Store.OpRevokeOtherPolicies(hash))
    case Withdraw(t, DoRevokeRow(id, _, _)) => if t in s.threads then None else Some(Store.OpRevoke(id))
    case Ask(t, DoStoreApproval(approval, _, _)) =>
      if t in s.threads && s.threads[t].Requesting?
      then Some(Store.OpInsertApproval(approval, s.threads[t].authorization.subject.request, s.boot)) else None
    case Decide(t, DoStoreDecision(_, _)) =>
      if t in s.threads && s.threads[t].Judged?
      then Some(Store.OpDecide(s.threads[t].approval, s.threads[t].decision)) else None
    case Issue(t, DoMintRow(id, _, _, _)) =>
      if t in s.threads && s.threads[t].Minting? then Some(MintOp(s, s.threads[t].authorization, id)) else None
    case Consume(t, DoConsumeRow(execution, _, _)) =>
      if t in s.threads && s.threads[t].Verified?
      then Some(Store.OpConsume(s.threads[t].use.capability.terms.id, execution, TotpClaim(s.threads[t].use))) else None
    case Finish(t, DoFinishRow(_, _)) =>
      if t in s.threads && s.threads[t].Finishing?
      then Some(Store.OpFinish(s.threads[t].execution, s.threads[t].completed)) else None
    case Callback(t, DoSpendOAuthRow(_)) =>
      if t in s.threads && s.threads[t].OAuthTaken? then Some(Store.OpConsumeOAuth(s.threads[t].oauth)) else None
    case _ => None
  }

  function MintOp(s: State, a: Authorization, id: Id): Store.Op {
    Store.OpInsertCapability(id, a.subject.request, a.binding.session, a.subject.policyHash, SINGLE_USE, s.boot)
  }

  /** Tables and log are what one audited transaction makes of them. */
  ghost predicate Transacts(
    env: Env, s: State, s': State, op: Store.Op, content: Ledger.EventContent, stored: bool)
  {
    var result := Transact(env, s, Store.Attempt(s.db, op), content, stored).1;
    s'.db == result.db && s'.log == result.log
  }

  lemma StoreApprovalTransacts(
    env: Env, s: State, t: nat, approval: Id, content: Ledger.EventContent, stored: bool)
    requires t in s.threads && s.threads[t].Requesting?
    ensures Transacts(env, s, StoreApproval(env, s, t, approval, content, stored),
                      Transaction(s, Ask(t, DoStoreApproval(approval, content, stored))).value, content, stored)
  {
    hide Transact;
  }

  lemma StoreDecisionTransacts(env: Env, s: State, t: nat, content: Ledger.EventContent, stored: bool)
    requires t in s.threads && s.threads[t].Judged?
    ensures Transacts(env, s, StoreDecision(env, s, t, content, stored),
                      Transaction(s, Decide(t, DoStoreDecision(content, stored))).value, content, stored)
  {
    hide Transact;
  }

  lemma MintRowTransacts(
    env: Env, s: State, t: nat, id: Id, now: int, content: Ledger.EventContent, stored: bool)
    requires t in s.threads && s.threads[t].Minting?
    ensures Transacts(env, s, MintRow(env, s, t, id, now, content, stored),
                      Transaction(s, Issue(t, DoMintRow(id, now, content, stored))).value, content, stored)
  {
    hide Transact, NewCapability;
  }

  lemma ConsumeRowTransacts(
    env: Env, s: State, t: nat, execution: Id, content: Ledger.EventContent, stored: bool)
    requires t in s.threads && s.threads[t].Verified?
    ensures Transacts(env, s, ConsumeRow(env, s, t, execution, content, stored),
                      Transaction(s, Consume(t, DoConsumeRow(execution, content, stored))).value, content, stored)
  {
    hide Transact, TotpClaim;
  }

  lemma FinishRowTransacts(env: Env, s: State, t: nat, content: Ledger.EventContent, stored: bool)
    requires t in s.threads && s.threads[t].Finishing?
    ensures Transacts(env, s, FinishRow(env, s, t, content, stored),
                      Transaction(s, Finish(t, DoFinishRow(content, stored))).value, content, stored)
  {
    hide Transact;
  }

  lemma ReloadRowsTransacts(env: Env, s: State, t: nat, hash: Bytes, content: Ledger.EventContent, stored: bool)
    requires t !in s.threads
    ensures Transacts(env, s, ReloadRows(env, s, t, hash, content, stored),
                      Transaction(s, Withdraw(t, DoReloadRows(hash, content, stored))).value, content, stored)
  {
    hide Transact;
  }

  lemma RevokeRowTransacts(env: Env, s: State, t: nat, id: Id, content: Ledger.EventContent, stored: bool)
    requires t !in s.threads
    ensures Transacts(env, s, RevokeRow(env, s, t, id, content, stored),
                      Transaction(s, Withdraw(t, DoRevokeRow(id, content, stored))).value, content, stored)
  {
    hide Transact;
  }

  /** The content and fate of the record that goes with the transaction. */
  function RecordOf(step: Step): Option<(Ledger.EventContent, bool)> {
    match step
    case Ask(_, DoStoreApproval(_, content, stored)) => Some((content, stored))
    case Decide(_, DoStoreDecision(content, stored)) => Some((content, stored))
    case Issue(_, DoMintRow(_, _, content, stored)) => Some((content, stored))
    case Consume(_, DoConsumeRow(_, content, stored)) => Some((content, stored))
    case Finish(_, DoFinishRow(content, stored)) => Some((content, stored))
    case Withdraw(_, DoReloadRows(_, content, stored)) => Some((content, stored))
    case Withdraw(_, DoRevokeRow(_, content, stored)) => Some((content, stored))
    case _ => None
  }

  lemma StepTransacts(env: Env, s: State, step: Step)
    requires RecordOf(step).Some? && Transaction(s, step).Some?
    ensures Transacts(env, s, Next(env, s, step), Transaction(s, step).value,
                      RecordOf(step).value.0, RecordOf(step).value.1)
  {
    hide Transacts, StoreApproval, StoreDecision, MintRow, ConsumeRow, FinishRow, ReloadRows, RevokeRow;
    match step
    case Ask(t, DoStoreApproval(approval, content, stored)) =>
      StoreApprovalTransacts(env, s, t, approval, content, stored);
    case Decide(t, DoStoreDecision(content, stored)) => StoreDecisionTransacts(env, s, t, content, stored);
    case Issue(t, DoMintRow(id, now, content, stored)) => MintRowTransacts(env, s, t, id, now, content, stored);
    case Consume(t, DoConsumeRow(execution, content, stored)) =>
      ConsumeRowTransacts(env, s, t, execution, content, stored);
    case Finish(t, DoFinishRow(content, stored)) => FinishRowTransacts(env, s, t, content, stored);
    case Withdraw(t, DoReloadRows(hash, content, stored)) =>
      ReloadRowsTransacts(env, s, t, hash, content, stored);
    case Withdraw(t, DoRevokeRow(id, content, stored)) => RevokeRowTransacts(env, s, t, id, content, stored);
  }

  /** A step with a transaction of its own changes nothing before its time. */
  lemma NotYet(env: Env, s: State, step: Step)
    requires Transaction(s, step) == None
    requires RecordOf(step).Some? || (step.Callback? && step.callback.DoSpendOAuthRow?)
    ensures Next(env, s, step) == s
  {
    hide Transact, NewRow, TotpClaim, NewCapability, Store.ConsumeOAuth;
    match step
    case Ask(t, DoStoreApproval(_, _, _)) =>
    case Decide(t, DoStoreDecision(_, _)) =>
    case Issue(t, DoMintRow(_, _, _, _)) =>
    case Consume(t, DoConsumeRow(_, _, _)) =>
    case Finish(t, DoFinishRow(_, _)) =>
    case Withdraw(t, DoReloadRows(_, _, _)) =>
    case Withdraw(t, DoRevokeRow(_, _, _)) =>
    case Callback(t, DoSpendOAuthRow(_)) =>
  }

  ghost predicate DbStep(s: State, step: Step, s': State) {
    || s'.db == s.db
    || (Transaction(s, step).Some? && s'.db == Store.Apply(s.db, Transaction(s, step).value))
  }

  lemma SpendOAuthRowDb(s: State, t: nat, stored: bool)
    ensures DbStep(s, Callback(t, DoSpendOAuthRow(stored)), SpendOAuthRow(s, t, stored))
  {
    hide Store.ConsumeOAuth;
  }

  predicate WritesDb(step: Step) {
    !(Written(step) !! {RowSet, RowStates, RunSet, RunStates, ApprovalRows, TotpRows})
  }

  /** Each step commits at most the one transaction named above. */
  lemma StepDb(env: Env, s: State, step: Step)
    ensures DbStep(s, step, Next(env, s, step))
  {
    hide Next, SpendOAuthRow, Restart, Transact, Store.Attempt, Store.Recover;
    if IsRestart(step) {
      RestartDb(env, s, step.world);
    } else if !WritesDb(step) {
      StepFrame(env, s, step);
    } else if Transaction(s, step) == None {
      NotYet(env, s, step);
    } else if step.Callback? {
      CallbackDb(env, s, step);
    } else {
      StepTransacts(env, s, step);
    }
  }

  lemma CallbackDb(env: Env, s: State, step: Step)
    requires step.Callback? && WritesDb(step)
    ensures DbStep(s, step, Next(env, s, step))
  {
    hide DbStep, SpendOAuthRow;
    SpendOAuthRowDb(s, step.t, step.callback.stored);
  }

  lemma RestartDb(env: Env, s: State, world: WorldStep)
    requires world.DoRestart?
    ensures DbStep(s, World(world), Next(env, s, World(world)))
  {
    hide Ledger.Reopen, Store.Recover;
  }

  /** Only a restart begins another process. */
  lemma StepBoot(env: Env, s: State, step: Step)
    ensures Next(env, s, step).boot == s.boot || IsRestart(step)
  {
    hide Next;
    if !IsRestart(step) {
      StepFrame(env, s, step);
    }
  }

  /** The log moves by at most one operation; only a restart opens it anew. */
  ghost predicate LogStep(env: Env, s: State, s': State) {
    || s'.log == s.log
    || exists op: Ledger.LogOp :: !op.Open? && s'.log == Ledger.Apply(env.crypto, s.log, op)
  }

  lemma TransactLog(env: Env, s: State, tables: Option<Store.Tables>, content: Ledger.EventContent, stored: bool)
    ensures Transact(env, s, tables, content, stored).1.log
            == Ledger.Apply(env.crypto, s.log, Ledger.Record(content, stored && tables.Some?))
  {
  }

  lemma RecordedLog(
    env: Env, s: State, s': State, tables: Option<Store.Tables>, content: Ledger.EventContent, stored: bool)
    requires s'.log == Transact(env, s, tables, content, stored).1.log
    ensures LogStep(env, s, s')
  {
    hide Transact, Ledger.Apply;
    TransactLog(env, s, tables, content, stored);
  }

  lemma RecordRequestedLog(env: Env, s: State, t: nat, content: Ledger.EventContent, stored: bool)
    ensures LogStep(env, s, RecordRequested(env, s, t, content, stored))
  {
    hide Transact, LogStep;
    var s' := RecordRequested(env, s, t, content, stored);
    if t in s.threads && s.threads[t].Screening? {
      RecordedLog(env, s, s', Some(s.db), content, stored);
    } else {
      NothingLogged(env, s, s');
    }
  }

  lemma RecordGrantUseLog(env: Env, s: State, t: nat, content: Ledger.EventContent, stored: bool)
    ensures LogStep(env, s, RecordGrantUse(env, s, t, content, stored))
  {
    hide Transact, LogStep;
    var s' := RecordGrantUse(env, s, t, content, stored);
    if t in s.threads && s.threads[t].Touched? {
      RecordedLog(env, s, s', Some(s.db), content, stored);
    } else {
      NothingLogged(env, s, s');
    }
  }

  lemma ReleaseLog(env: Env, s: State, t: nat, secret: Option<Bytes>, content: Ledger.EventContent, stored: bool)
    ensures LogStep(env, s, Release(env, s, t, secret, content, stored))
  {
    hide Transact, LogStep, FieldsReady, WithCode, Continued;
    var s' := Release(env, s, t, secret, content, stored);
    if t in s.threads && s.threads[t].Releasing? {
      RecordedLog(env, s, s', Some(s.db), content, stored && FieldsReady(env, s.threads[t].use, secret));
    } else {
      NothingLogged(env, s, s');
    }
  }

  lemma WorldLog(env: Env, s: State, step: WorldStep)
    requires !step.DoRestart?
    ensures LogStep(env, s, WorldNext(env, s, step))
  {
    hide Transact, Ledger.Apply, Ledger.Append, Grants.Insert;
    var s' := WorldNext(env, s, step);
    match step
    case DoRecordOther(content, stored) => TransactLog(env, s, Some(s.db), content, stored);
    case DoInsertGrant(id, grant, content, stored) =>
      var unused := grant.(revokedAt := None, lastUsedAt := None, useCount := 0);
      AppendLog(env, s, content, stored && Grants.Insert(s.grants, id, unused).Some?);
    case _ =>
  }

  lemma AppendLog(env: Env, s: State, content: Ledger.EventContent, stored: bool)
    ensures Ledger.Append(env.crypto, s.log, content, stored).0
            == Ledger.Apply(env.crypto, s.log, Ledger.Record(content, stored))
  {
    hide Ledger.Append;
  }

  lemma NothingLogged(env: Env, s: State, s': State)
    requires s'.log == s.log
    ensures LogStep(env, s, s')
  {
  }

  lemma StepLog(env: Env, s: State, step: Step)
    requires !IsRestart(step)
    ensures LogStep(env, s, Next(env, s, step))
  {
    hide Next, LogStep, Transact, Store.Attempt;
    var s' := Next(env, s, step);
    if Trail !in Written(step) {
      StepFrame(env, s, step);
      NothingLogged(env, s, s');
    } else if RecordOf(step).Some? {
      if Transaction(s, step) == None {
        NotYet(env, s, step);
        NothingLogged(env, s, s');
      } else {
        StepTransacts(env, s, step);
        RecordedLog(env, s, s', Store.Attempt(s.db, Transaction(s, step).value),
                    RecordOf(step).value.0, RecordOf(step).value.1);
      }
    } else {
      RecordsLog(env, s, step);
    }
  }

  /** The steps that record something and commit nothing else. */
  lemma RecordsLog(env: Env, s: State, step: Step)
    requires Trail in Written(step) && RecordOf(step) == None && !IsRestart(step)
    ensures LogStep(env, s, Next(env, s, step))
  {
    hide LogStep, RecordRequested, RecordGrantUse, Release, WorldNext;
    match step
    case Ask(t, DoRecordRequested(content, stored)) => RecordRequestedLog(env, s, t, content, stored);
    case Ask(t, DoRecordGrantUse(content, stored)) => RecordGrantUseLog(env, s, t, content, stored);
    case Consume(t, DoRelease(secret, content, stored)) => ReleaseLog(env, s, t, secret, content, stored);
    case World(world) => WorldLog(env, s, world);
  }

  ghost predicate Audited(s: State, s': State) {
    s'.db == s.db || |s'.log.events| == |s.log.events| + 1
  }

  /** Every durable change a handler makes comes with exactly one audit record,
      or does not happen. Only the OAuth callback consumes without one, and a
      restart recovers without one. */
  lemma StepAudited(env: Env, s: State, step: Step)
    requires !step.Callback? && !IsRestart(step)
    ensures Audited(s, Next(env, s, step))
  {
    hide Next, Transact, Store.Attempt;
    if !WritesDb(step) {
      StepFrame(env, s, step);
    } else if Transaction(s, step) == None {
      NotYet(env, s, step);
    } else {
      StepTransacts(env, s, step);
    }
  }

  /** And no secret is handed over without the record of its retrieval. */
  lemma ReleaseIsRecorded(env: Env, s: State, t: nat, secret: Option<Bytes>, content: Ledger.EventContent, stored: bool)
    ensures var s' := Release(env, s, t, secret, content, stored);
            s'.history.released != s.history.released ==> |s'.log.events| == |s.log.events| + 1
  {
    hide Recorded, Continued;
  }

  // ----------------------------------------------------------------- results

  lemma SoundStep(env: Env, s: State, step: Step)
    requires Store.Sound(s.db)
    ensures Store.Keeps(s.db, Next(env, s, step).db)
  {
    hide Store.Sound, Store.Keeps, Store.Apply, Next, Transaction;
    StepDb(env, s, step);
    Store.NothingHappens(s.db);
    if Transaction(s, step).Some? {
      Store.ApplyKeeps(s.db, Transaction(s, step).value);
    }
  }

  /** In every interleaving, and across restarts, the tables stay sound. */
  lemma {:induction false} RunIsSound(env: Env, s: State, steps: seq<Step>)
    requires Store.Sound(s.db)
    ensures Store.Sound(Run(env, s, steps).db)
    decreases |steps|
  {
    hide Next, Store.Sound;
    if steps != [] {
      SoundStep(env, s, steps[0]);
      RunIsSound(env, Next(env, s, steps[0]), steps[1..]);
    }
  }

  lemma EveryRunIsSound(env: Env, signer: Ledger.Signer, policyHash: Bytes, steps: seq<Step>)
    ensures Store.Sound(Run(env, Initial(signer, policyHash), steps).db)
  {
    hide Run, Audit.Genesis;
    RunIsSound(env, Initial(signer, policyHash), steps);
  }

  /** A capability that is consumed, expired or revoked in the store stays as it
      is, and no execution is started for it, whatever handlers are in flight. */
  lemma {:induction false} EndedStaysEnded(env: Env, s: State, steps: seq<Step>, id: Id)
    requires Store.Sound(s.db)
    requires id in s.db.capabilities && s.db.capabilities[id].state.IsTerminal()
    ensures Untouched(s.db, Run(env, s, steps).db, id)
    decreases |steps|
  {
    hide Next, Store.Sound, Store.Advances;
    if steps != [] {
      var next := Next(env, s, steps[0]);
      SoundStep(env, s, steps[0]);
      Store.TerminalRowStays(s.db, next.db, id);
      EndedStaysEnded(env, next, steps[1..], id);
    }
  }

  /** Nor does a finished execution change. */
  lemma {:induction false} FinishedStaysFinished(env: Env, s: State, steps: seq<Step>, e: Id)
    requires Store.Sound(s.db)
    requires e in s.db.executions && s.db.executions[e].state.IsTerminal()
    ensures e in Run(env, s, steps).db.executions && Run(env, s, steps).db.executions[e] == s.db.executions[e]
    decreases |steps|
  {
    hide Next, Store.Sound;
    if steps != [] {
      SoundStep(env, s, steps[0]);
      FinishedStaysFinished(env, Next(env, s, steps[0]), steps[1..], e);
    }
  }

  ghost predicate Untouched(db: Store.Tables, after: Store.Tables, id: Id)
    requires id in db.capabilities
  {
    && id in after.capabilities && after.capabilities[id] == db.capabilities[id]
    && (forall e <- db.executions ::
          e in after.executions && after.executions[e].capability == db.executions[e].capability)
    && (forall e <- after.executions :: after.executions[e].capability == id ==> e in db.executions)
  }

  /** What is left of a capability that has been closed unused. */
  ghost predicate NeverUsedAgain(db: Store.Tables, after: Store.Tables, id: Id)
    requires id in db.capabilities
  {
    && id in after.capabilities && !after.capabilities[id].IsLive()
    && after.capabilities[id].usedCount == db.capabilities[id].usedCount
    && (forall e <- after.executions :: after.executions[e].capability == id ==> e in db.executions)
  }

  /** Nothing minted before a restart is consumed after it. */
  lemma RestartEndsCapabilities(
    env: Env, s: State, signer: Ledger.Signer, policyHash: Bytes, hashRead: bool, steps: seq<Step>, id: Id)
    requires Store.Sound(s.db) && id in s.db.capabilities
    ensures NeverUsedAgain(s.db, Run(env, Restart(s, signer, policyHash, hashRead), steps).db, id)
  {
    hide Run, Store.Sound, Ledger.Reopen;
    var s' := Restart(s, signer, policyHash, hashRead);
    Store.ApplyKeeps(s.db, Store.OpRecover);
    assert s'.db == Store.Recover(s.db);
    EndedStaysEnded(env, s', steps, id);
  }

  /** Nor is anything minted under another policy once a reload has committed,
      even by handlers that had already verified their token. */
  lemma ReloadEndsCapabilities(
    env: Env, s: State, t: nat, hash: Bytes, content: Ledger.EventContent, stored: bool, steps: seq<Step>, id: Id)
    requires Store.Sound(s.db) && id in s.db.capabilities && s.db.capabilities[id].policyHash != hash
    requires t !in s.threads && t in ReloadRows(env, s, t, hash, content, stored).threads
    ensures NeverUsedAgain(s.db, Run(env, ReloadRows(env, s, t, hash, content, stored), steps).db, id)
  {
    hide Run, Store.Sound, Transact;
    var s' := ReloadRows(env, s, t, hash, content, stored);
    Store.ApplyKeeps(s.db, Store.OpRevokeOtherPolicies(hash));
    assert s'.db == Store.RevokeOtherPolicies(s.db, hash);
    EndedStaysEnded(env, s', steps, id);
  }

  // ----------------------------------------------------------------- grants

  /** What a step does to the table of standing grants. */
  function GrantOp(s: State, step: Step): Option<Grants.Op> {
    match step
    case Ask(t, DoTouchGrant(stored)) =>
      if stored && t in s.threads && s.threads[t].Granting?
      then Some(Grants.DoTouch(s.threads[t].standing.id, s.threads[t].authorization.measurement.at)) else None
    case Withdraw(t, DoRevokeGrants(reached, at)) =>
      if t in s.threads && s.threads[t].GrantsListed?
      then Some(Grants.DoRevokeListed(s.threads[t].ids * reached, at)) else None
    case World(DoInsertGrant(id, grant, _, _)) =>
      Some(Grants.DoInsert(id, grant.(revokedAt := None, lastUsedAt := None, useCount := 0)))
    case _ => None
  }

  ghost predicate GrantStep(s: State, step: Step, s': State) {
    || s'.grants == s.grants
    || (GrantOp(s, step).Some? && s'.grants == Grants.Apply(s.grants, GrantOp(s, step).value))
  }

  lemma TouchGrantStep(s: State, t: nat, stored: bool)
    ensures GrantStep(s, Ask(t, DoTouchGrant(stored)), TouchGrant(s, t, stored))
  {
    hide Grants.Touch;
  }

  lemma RevokeGrantsStep(s: State, t: nat, reached: set<Id>, at: int)
    ensures GrantStep(s, Withdraw(t, DoRevokeGrants(reached, at)), RevokeGrants(s, t, reached, at))
  {
    hide Grants.RevokeIds;
  }

  lemma InsertGrantStep(env: Env, s: State, step: WorldStep)
    requires step.DoInsertGrant?
    ensures GrantStep(s, World(step), InsertGrant(env, s, step.id, step.grant, step.content, step.stored))
  {
    hide Grants.Insert, Ledger.Append;
  }

  predicate WritesGrants(step: Step) {
    match step
    case Ask(_, DoTouchGrant(_)) => true
    case Withdraw(_, DoRevokeGrants(_, _)) => true
    case World(DoInsertGrant(_, _, _, _)) => true
    case _ => false
  }

  lemma OnlyTheseWriteGrants(step: Step)
    requires GrantRows in Written(step) && !IsRestart(step)
    ensures WritesGrants(step)
  {
  }

  lemma LoudGrantStep(env: Env, s: State, step: Step)
    requires WritesGrants(step)
    ensures GrantStep(s, step, Next(env, s, step))
  {
    hide TouchGrant, RevokeGrants, InsertGrant, GrantStep;
    match step
    case Ask(t, DoTouchGrant(stored)) => TouchGrantStep(s, t, stored);
    case Withdraw(t, DoRevokeGrants(reached, at)) => RevokeGrantsStep(s, t, reached, at);
    case World(DoInsertGrant(_, _, _, _)) => InsertGrantStep(env, s, step.world);
  }

  lemma RestartGrants(env: Env, s: State, world: WorldStep)
    requires world.DoRestart?
    ensures Next(env, s, World(world)).grants == s.grants
  {
    hide Ledger.Reopen, Store.Recover;
  }

  lemma StepGrants(env: Env, s: State, step: Step)
    ensures GrantStep(s, step, Next(env, s, step))
  {
    hide Next, GrantOp;
    if IsRestart(step) {
      RestartGrants(env, s, step.world);
    } else if GrantRows !in Written(step) {
      StepFrame(env, s, step);
    } else {
      OnlyTheseWriteGrants(step);
      LoudGrantStep(env, s, step);
    }
  }

  lemma GrantsPersist(env: Env, s: State, step: Step)
    ensures Grants.Persist(s.grants, Next(env, s, step).grants)
    ensures Grants.OneLive(s.grants) ==> Grants.OneLive(Next(env, s, step).grants)
  {
    hide Next, GrantOp, Grants.Apply, Grants.OneLive;
    StepGrants(env, s, step);
    if GrantOp(s, step).Some? {
      Grants.ApplyPersists(s.grants, GrantOp(s, step).value);
      if Grants.OneLive(s.grants) {
        Grants.ApplyKeeps(s.grants, GrantOp(s, step).value);
      }
    }
  }

  /** Over every run, restarts included, a tuple has at most one live grant. */
  lemma {:induction false} GrantsStayUnique(env: Env, s: State, steps: seq<Step>)
    requires Grants.OneLive(s.grants)
    ensures Grants.OneLive(Run(env, s, steps).grants)
    decreases |steps|
  {
    hide Next, Grants.OneLive;
    if steps != [] {
      GrantsPersist(env, s, steps[0]);
      GrantsStayUnique(env, Next(env, s, steps[0]), steps[1..]);
    }
  }

  // ---------------------------------------------------------------- the log

  /** Whether the process that is there after the step opened its log blind. */
  predicate Blind(s: State, blind: bool, step: Step) {
    if IsRestart(step) then Ledger.OpensBlind(s.log, step.world.hashRead) else blind
  }

  predicate Stores(env: Env, s: State, step: Step) {
    |Next(env, s, step).log.events| > |s.log.events|
  }

  /** No process that opened blind ever stored a record. */
  predicate NoBlindRecord(env: Env, s: State, blind: bool, steps: seq<Step>)
    decreases |steps|
  {
    steps != [] ==>
      && !(blind && Stores(env, s, steps[0]))
      && NoBlindRecord(env, Next(env, s, steps[0]), Blind(s, blind, steps[0]), steps[1..])
  }

  predicate BlindAfter(env: Env, s: State, blind: bool, steps: seq<Step>)
    decreases |steps|
  {
    if steps == [] then blind else BlindAfter(env, Next(env, s, steps[0]), Blind(s, blind, steps[0]), steps[1..])
  }

  /** Whoever reopens the log does so with keys the verifier knows. */
  ghost predicate Known(env: Env, keys: map<nat, Bytes>, signers: map<Bytes, Bytes>, step: Step) {
    IsRestart(step) ==> Ledger.Covers(env.crypto, keys, signers, step.world.signer)
  }

  lemma StepTracks(
    env: Env, keys: map<nat, Bytes>, signers: map<Bytes, Bytes>, s: State, blind: bool, step: Step)
    requires Audit.LawfulSignatures(env.crypto)
    requires Ledger.Tracked(env.crypto, keys, signers, s.log, blind) && Known(env, keys, signers, step)
    ensures var next := Next(env, s, step);
            && s.log.events <= next.log.events
            && if blind && Stores(env, s, step) then !Audit.ChainValid(env.crypto, keys, next.log.events)
               else Ledger.Tracked(env.crypto, keys, signers, next.log, Blind(s, blind, step))
  {
    hide Ledger.Tracked, Ledger.Apply, Ledger.Covers, Ledger.OpensBlind, Audit.ChainValid,
         Audit.LawfulSignatures, Next;
    var op := StepOp(env, s, step);
    if op.Some? {
      Ledger.ApplyTracks(env.crypto, keys, signers, s.log, blind, op.value);
      Ledger.EventsGrow(env.crypto, s.log, op.value);
      ReopensSame(env, s, op.value);
    }
  }

  /** What the step does to the log. */
  lemma StepOp(env: Env, s: State, step: Step) returns (op: Option<Ledger.LogOp>)
    ensures var log := Next(env, s, step).log;
            match op
            case None => log == s.log && !IsRestart(step)
            case Some(o) =>
              && log == Ledger.Apply(env.crypto, s.log, o) && o.Open? == IsRestart(step)
              && (o.Open? ==> o.signer == step.world.signer && o.hashRead == step.world.hashRead)
  {
    hide Ledger.Apply, Next;
    if IsRestart(step) {
      RestartLog(env, s, step.world);
      op := Some(Ledger.Open(step.world.signer, step.world.hashRead));
    } else {
      StepLog(env, s, step);
      if Next(env, s, step).log == s.log {
        op := None;
      } else {
        var o: Ledger.LogOp :| !o.Open? && Next(env, s, step).log == Ledger.Apply(env.crypto, s.log, o);
        op := Some(o);
      }
    }
  }

  /** Opening a log stores nothing. */
  lemma ReopensSame(env: Env, s: State, op: Ledger.LogOp)
    ensures op.Open? ==> Ledger.Apply(env.crypto, s.log, op).events == s.log.events
  {
  }

  lemma RestartLog(env: Env, s: State, world: WorldStep)
    requires world.DoRestart?
    ensures Next(env, s, World(world)).log == Ledger.Apply(env.crypto, s.log, Ledger.Open(world.signer, world.hashRead))
  {
  }

  lemma {:induction false} EventsGrow(env: Env, s: State, steps: seq<Step>)
    ensures s.log.events <= Run(env, s, steps).log.events
    decreases |steps|
  {
    hide Next, Ledger.Apply;
    if steps != [] {
      var op := StepOp(env, s, steps[0]);
      if op.Some? {
        Ledger.EventsGrow(env.crypto, s.log, op.value);
      }
      EventsGrow(env, Next(env, s, steps[0]), steps[1..]);
    }
  }

  /** The run keeps to what its blind records allow. */
  ghost predicate VerifiesIff(
    env: Env, keys: map<nat, Bytes>, signers: map<Bytes, Bytes>, s: State, blind: bool, steps: seq<Step>)
  {
    && (Audit.ChainValid(env.crypto, keys, Run(env, s, steps).log.events) <==> NoBlindRecord(env, s, blind, steps))
    && (NoBlindRecord(env, s, blind, steps) ==>
          Ledger.Tracked(env.crypto, keys, signers, Run(env, s, steps).log, BlindAfter(env, s, blind, steps)))
  }

  lemma {:induction false} RunVerifies(
    env: Env, keys: map<nat, Bytes>, signers: map<Bytes, Bytes>, s: State, blind: bool, steps: seq<Step>)
    requires Audit.LawfulSignatures(env.crypto)
    requires Ledger.Tracked(env.crypto, keys, signers, s.log, blind)
    requires forall i :: 0 <= i < |steps| ==> Known(env, keys, signers, steps[i])
    ensures VerifiesIff(env, keys, signers, s, blind, steps)
    decreases |steps|
  {
    hide Next, Ledger.Tracked, Known, Audit.LawfulSignatures, Audit.ChainValid, Blind;
    if steps == [] {
      Ledger.TrackedIsValid(env.crypto, keys, signers, s.log, blind);
    } else {
      var next := Next(env, s, steps[0]);
      StepTracks(env, keys, signers, s, blind, steps[0]);
      if blind && Stores(env, s, steps[0]) {
        EventsGrow(env, next, steps[1..]);
        if Audit.ChainValid(env.crypto, keys, Run(env, next, steps[1..]).log.events) {
          Ledger.PrefixIsValid(env.crypto, keys, next.log.events, Run(env, next, steps[1..]).log.events);
        }
      } else {
        RunVerifies(env, keys, signers, next, Blind(s, blind, steps[0]), steps[1..]);
      }
    }
  }

  /** From the very first start of a broker, in every interleaving, whichever
      writes fail and however often it is restarted: the stored chain verifies if
      and only if no process that opened the log blind ever stored a record, and
      then every checkpoint holds and the cursor is in step, or was opened blind
      and is unused. */
  lemma EveryRunVerifies(
    env: Env, keys: map<nat, Bytes>, signers: map<Bytes, Bytes>, signer: Ledger.Signer, policyHash: Bytes,
    steps: seq<Step>)
    requires Audit.LawfulSignatures(env.crypto) && Ledger.Covers(env.crypto, keys, signers, signer)
    requires forall i :: 0 <= i < |steps| ==> Known(env, keys, signers, steps[i])
    ensures VerifiesIff(env, keys, signers, Initial(signer, policyHash), false, steps)
  {
    hide Run, Audit.LawfulSignatures, Known, Ledger.Covers, VerifiesIff;
    RunVerifies(env, keys, signers, Initial(signer, policyHash), false, steps);
  }
}
