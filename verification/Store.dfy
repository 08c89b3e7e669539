/** The durable tables of the broker. Every transaction is a function from
    tables to tables, or `None` when one of its tests or unique keys fails and it
    is rolled back. */
module Store {
  import opened ByteStrings
  import opened Wrappers
  import opened Domain

  /** `boot` is bookkeeping: the number of the broker process that inserted the
      row. It is never read by a transaction. */
  datatype CapabilityRow = CapabilityRow(
    request: Id, session: Id, policyHash: Bytes, state: CapabilityState, maxUses: nat, usedCount: nat, boot: nat)
  {
    predicate IsLive() {
      state == Issued || state == Active
    }
  }

  type TotpStep = (Id, nat)

  /** `claimed` is bookkeeping: the time step a TOTP execution was given. */
  datatype ExecutionRow = ExecutionRow(capability: Id, state: ExecutionState, claimed: Option<TotpStep>)

  datatype Decision = Pending | Approved | Denied | Expired | Invalidated

  datatype ApprovalRow = ApprovalRow(request: Id, decision: Decision, boot: nat)

  datatype Tables = Tables(
    capabilities: map<Id, CapabilityRow>,
    executions: map<Id, ExecutionRow>,
    approvals: map<Id, ApprovalRow>,
    totp: map<TotpStep, Id>)

  // ------------------------------------------------------------ transactions

  function InsertCapability(db: Tables, id: Id, row: CapabilityRow): Option<Tables> {
    if id in db.capabilities then None
    else Some(db.(capabilities := db.capabilities[id := row]))
  }

  predicate Consumable(db: Tables, id: Id) {
    id in db.capabilities && db.capabilities[id].IsLive() && db.capabilities[id].usedCount < db.capabilities[id].maxUses
  }

  function Spent(row: CapabilityRow): CapabilityRow {
    row.(state := Consumed, usedCount := row.usedCount + 1)
  }

  predicate StepFree(db: Tables, step: TotpStep, execution: Id) {
    step !in db.totp && forall k <- db.totp :: db.totp[k] != execution
  }

  /** Claim the TOTP step if there is one, spend the capability, insert the
      execution: all of it or nothing. */
  function ConsumeWithExecution(db: Tables, id: Id, execution: Id, step: Option<TotpStep>): Option<Tables> {
    if step.Some? && !StepFree(db, step.value, execution) then None
    else if !Consumable(db, id) || execution in db.executions then None
    else Some(db.(
                totp := if step.Some? then db.totp[step.value := execution] else db.totp,
                capabilities := db.capabilities[id := Spent(db.capabilities[id])],
                executions := db.executions[execution := ExecutionRow(id, Consuming, step)]))
  }

  function FinishExecution(db: Tables, execution: Id, outcome: ExecutionState): Option<Tables> {
    if execution !in db.executions || db.executions[execution].state != Consuming then None
    else Some(db.(executions := db.executions[execution := db.executions[execution].(state := outcome)]))
  }

  function ConsumeOAuth(db: Tables, id: Id): Option<Tables> {
    if !Consumable(db, id) then None
    else Some(db.(capabilities := db.capabilities[id := Spent(db.capabilities[id])]))
  }

  function RevokeCapability(db: Tables, id: Id): Option<Tables> {
    if id !in db.capabilities || !db.capabilities[id].IsLive() then None
    else Some(db.(capabilities := db.capabilities[id := db.capabilities[id].(state := Revoked)]))
  }

  /** What a table-wide revocation does to one row. */
  function RevokedIfStale(row: CapabilityRow, hash: Bytes): CapabilityRow {
    if row.IsLive() && row.policyHash != hash then row.(state := Revoked) else row
  }

  function RevokedIfSession(row: CapabilityRow, session: Id): CapabilityRow {
    if row.IsLive() && row.session == session then row.(state := Revoked) else row
  }

  function RevokeOtherPolicies(db: Tables, hash: Bytes): Tables {
    db.(capabilities := map id | id in db.capabilities :: RevokedIfStale(db.capabilities[id], hash))
  }

  function RevokeSession(db: Tables, session: Id): Tables {
    db.(capabilities := map id | id in db.capabilities :: RevokedIfSession(db.capabilities[id], session))
  }

  function Interrupted(row: ExecutionRow): ExecutionRow {
    if row.state == Prepared || row.state == Consuming then row.(state := Indeterminate) else row
  }

  function ExpiredIfLive(row: CapabilityRow): CapabilityRow {
    if row.IsLive() then row.(state := CapabilityState.Expired) else row
  }

  /** `recover_incomplete_state`, the first act of every broker process. */
  function Recover(db: Tables): Tables {
    db.(capabilities := map id | id in db.capabilities :: ExpiredIfLive(db.capabilities[id]),
        executions := map id | id in db.executions :: Interrupted(db.executions[id]))
  }

  function InsertApproval(db: Tables, id: Id, row: ApprovalRow): Option<Tables> {
    if id in db.approvals then None
    else Some(db.(approvals := db.approvals[id := row]))
  }

  function DecideApproval(db: Tables, id: Id, decision: Decision): Option<Tables> {
    if id !in db.approvals || db.approvals[id].decision != Pending then None
    else Some(db.(approvals := db.approvals[id := db.approvals[id].(decision := decision)]))
  }

  // ---------------------------------------------------------- the live store

  /** The store itself: tables replaced in place, one transaction per method.
      `commits` is false when a later statement of the transaction, the audit
      insert or the commit fails; the working copy is then dropped. */
  class SqliteStore {
    var capabilities: map<Id, CapabilityRow>
    var executions: map<Id, ExecutionRow>
    var approvals: map<Id, ApprovalRow>
    var totp: map<TotpStep, Id>

    constructor ()
      ensures View() == Tables(map[], map[], map[], map[])
    {
      capabilities, executions, approvals, totp := map[], map[], map[], map[];
    }

    function View(): Tables
      reads this
    {
      Tables(capabilities, executions, approvals, totp)
    }

    method ConsumeCapabilityWithExecution(id: Id, execution: Id, step: Option<TotpStep>, commits: bool)
      returns (done: bool)
      modifies this
      ensures done == (commits && ConsumeWithExecution(old(View()), id, execution, step).Some?)
      ensures View() == if done then ConsumeWithExecution(old(View()), id, execution, step).value else old(View())
    {
      var steps := totp;
      if step.Some? {
        if step.value in steps || execution in steps.Values {
          return false;
        }
        steps := steps[step.value := execution];
      }
      if id !in capabilities
        || (capabilities[id].state != Issued && capabilities[id].state != Active)
        || capabilities[id].usedCount >= capabilities[id].maxUses
      {
        return false;
      }
      var rows := capabilities[id := capabilities[id].(state := Consumed, usedCount := capabilities[id].usedCount + 1)];
      if execution in executions {
        return false;
      }
      var runs := executions[execution := ExecutionRow(id, Consuming, step)];
      if !commits {
        return false;
      }
      totp, capabilities, executions := steps, rows, runs;
      return true;
    }

    method InsertCapabilityRow(id: Id, row: CapabilityRow, commits: bool) returns (done: bool)
      modifies this`capabilities
      ensures done == (commits && InsertCapability(old(View()), id, row).Some?)
      ensures View() == if done then InsertCapability(old(View()), id, row).value else old(View())
    {
      if id in capabilities || !commits {
        return false;
      }
      capabilities := capabilities[id := row];
      return true;
    }

    method ConsumeOAuthCapability(id: Id, commits: bool) returns (done: bool)
      modifies this`capabilities
      ensures done == (commits && ConsumeOAuth(old(View()), id).Some?)
      ensures View() == if done then ConsumeOAuth(old(View()), id).value else old(View())
    {
      if id !in capabilities
        || (capabilities[id].state != Issued && capabilities[id].state != Active)
        || capabilities[id].usedCount >= capabilities[id].maxUses || !commits
      {
        return false;
      }
      var row := capabilities[id];
      capabilities := capabilities[id := row.(state := Consumed, usedCount := row.usedCount + 1)];
      return true;
    }

    method RevokeCapabilityRow(id: Id, commits: bool) returns (done: bool)
      modifies this`capabilities
      ensures done == (commits && RevokeCapability(old(View()), id).Some?)
      ensures View() == if done then RevokeCapability(old(View()), id).value else old(View())
    {
      if id !in capabilities || (capabilities[id].state != Issued && capabilities[id].state != Active) || !commits {
        return false;
      }
      capabilities := capabilities[id := capabilities[id].(state := Revoked)];
      return true;
    }

    method InsertApprovalRow(id: Id, row: ApprovalRow, commits: bool) returns (done: bool)
      modifies this`approvals
      ensures done == (commits && InsertApproval(old(View()), id, row).Some?)
      ensures View() == if done then InsertApproval(old(View()), id, row).value else old(View())
    {
      if id in approvals || !commits {
        return false;
      }
      approvals := approvals[id := row];
      return true;
    }

    method UpdateApprovalRow(id: Id, decision: Decision, commits: bool) returns (done: bool)
      modifies this`approvals
      ensures done == (commits && DecideApproval(old(View()), id, decision).Some?)
      ensures View() == if done then DecideApproval(old(View()), id, decision).value else old(View())
    {
      if id !in approvals || approvals[id].decision != Pending || !commits {
        return false;
      }
      approvals := approvals[id := approvals[id].(decision := decision)];
      return true;
    }

    method FinishExecutionRow(execution: Id, outcome: ExecutionState, commits: bool) returns (done: bool)
      modifies this
      ensures done == (commits && FinishExecution(old(View()), execution, outcome).Some?)
      ensures View() == if done then FinishExecution(old(View()), execution, outcome).value else old(View())
    {
      if execution !in executions || executions[execution].state != Consuming || !commits {
        return false;
      }
      executions := executions[execution := executions[execution].(state := outcome)];
      return true;
    }

    /** The row-by-row sweep behind `UPDATE … WHERE state IN (…) AND policy_hash != ?`. */
    method RevokeCapabilitiesNotPolicy(hash: Bytes, commits: bool) returns (changed: nat, done: bool)
      modifies this
      ensures done == commits
      ensures View() == if done then RevokeOtherPolicies(old(View()), hash) else old(View())
      ensures changed == |StaleRows(old(capabilities), hash)|
    {
      var pending := StaleRows(capabilities, hash);
      var rows := capabilities;
      changed := |pending|;
      while pending != {}
        invariant pending <= StaleRows(capabilities, hash)
        invariant rows.Keys == capabilities.Keys
        invariant forall id <- rows ::
                    rows[id] == if id in pending then capabilities[id] else RevokedIfStale(capabilities[id], hash)
        decreases |pending|
      {
        var id :| id in pending;
        rows := rows[id := rows[id].(state := Revoked)];
        pending := pending - {id};
      }
      if commits {
        capabilities := rows;
      }
      return changed, commits;
    }

    method RecoverIncompleteState()
      modifies this
      ensures View() == Recover(old(View()))
    {
      ExpireLiveRows();
      InterruptExecutions();
    }

    method ExpireLiveRows()
      modifies this`capabilities
      ensures capabilities == Recover(old(View())).capabilities
    {
      var pending := capabilities.Keys;
      while pending != {}
        invariant pending <= capabilities.Keys == old(capabilities).Keys
        invariant forall id <- pending :: capabilities[id] == old(capabilities)[id]
        invariant forall id <- capabilities.Keys - pending :: capabilities[id] == ExpiredIfLive(old(capabilities)[id])
        decreases |pending|
      {
        var id :| id in pending;
        if capabilities[id].state == Issued || capabilities[id].state == Active {
          capabilities := capabilities[id := capabilities[id].(state := CapabilityState.Expired)];
        }
        pending := pending - {id};
      }
    }

    method InterruptExecutions()
      modifies this`executions
      ensures executions == Recover(old(View())).executions
    {
      var pending := executions.Keys;
      while pending != {}
        invariant pending <= executions.Keys == old(executions).Keys
        invariant forall id <- pending :: executions[id] == old(executions)[id]
        invariant forall id <- executions.Keys - pending :: executions[id] == Interrupted(old(executions)[id])
        decreases |pending|
      {
        var id :| id in pending;
        if executions[id].state == Prepared || executions[id].state == Consuming {
          executions := executions[id := executions[id].(state := Indeterminate)];
        }
        pending := pending - {id};
      }
    }
  }

  function StaleRows(rows: map<Id, CapabilityRow>, hash: Bytes): set<Id> {
    set id | id in rows && rows[id].IsLive() && rows[id].policyHash != hash
  }

  // ------------------------------------------------------------------- runs

  /** Everything the broker ever commits to these tables. */
  datatype Op =
    | OpInsertCapability(id: Id, request: Id, session: Id, policyHash: Bytes, maxUses: nat, boot: nat)
    | OpConsume(id: Id, execution: Id, step: Option<TotpStep>)
    | OpFinish(execution: Id, completed: bool)
    | OpConsumeOAuth(id: Id)
    | OpRevoke(id: Id)
    | OpRevokeOtherPolicies(hash: Bytes)
    | OpRevokeSession(session: Id)
    | OpRecover
    | OpInsertApproval(id: Id, request: Id, boot: nat)
    | OpDecide(id: Id, decision: Decision)

  function Commit(db: Tables, result: Option<Tables>): Tables {
    match result
    case None => db
    case Some(next) => next
  }

  /** The tables a transaction would leave, or `None` if it is rolled back. */
  function Attempt(db: Tables, op: Op): Option<Tables> {
    match op
    case OpInsertCapability(id, request, session, policyHash, maxUses, boot) =>
      InsertCapability(db, id, CapabilityRow(request, session, policyHash, Issued, maxUses, 0, boot))
    case OpConsume(id, execution, step) => ConsumeWithExecution(db, id, execution, step)
    case OpFinish(execution, completed) => FinishExecution(db, execution, if completed then Completed else Failed)
    case OpConsumeOAuth(id) => ConsumeOAuth(db, id)
    case OpRevoke(id) => RevokeCapability(db, id)
    case OpRevokeOtherPolicies(hash) => Some(RevokeOtherPolicies(db, hash))
    case OpRevokeSession(session) => Some(RevokeSession(db, session))
    case OpRecover => Some(Recover(db))
    case OpInsertApproval(id, request, boot) => InsertApproval(db, id, ApprovalRow(request, Pending, boot))
    case OpDecide(id, decision) => DecideApproval(db, id, decision)
  }

  function Apply(db: Tables, op: Op): Tables {
    Commit(db, Attempt(db, op))
  }

  function Run(db: Tables, ops: seq<Op>): Tables
    decreases |ops|
  {
    if ops == [] then db else Run(Apply(db, ops[0]), ops[1..])
  }

  /** An execution belongs to a spent capability and was never merely prepared;
      a capability has at most one. */
  ghost predicate ExecutionsSound(db: Tables) {
    && (forall e <- db.executions :: db.executions[e].capability in db.capabilities
                                     && db.capabilities[db.executions[e].capability].state == Consumed
                                     && db.executions[e].state != Prepared)
    && (forall e <- db.executions, f <- db.executions ::
          db.executions[e].capability == db.executions[f].capability ==> e == f)
  }

  predicate IssuedTo(db: Tables, step: TotpStep, execution: Id) {
    step in db.totp && db.totp[step] == execution
  }

  predicate ClaimedBy(db: Tables, step: TotpStep, execution: Id) {
    execution in db.executions && db.executions[execution].claimed == Some(step)
  }

  /** Issuances and TOTP executions correspond one to one. */
  ghost predicate TotpSound(db: Tables) {
    forall step, execution :: IssuedTo(db, step, execution) <==> ClaimedBy(db, step, execution)
  }

  ghost predicate UsesBounded(db: Tables) {
    forall id <- db.capabilities :: db.capabilities[id].usedCount <= db.capabilities[id].maxUses
  }

  /** What every run keeps. */
  ghost predicate Sound(db: Tables) {
    UsesBounded(db) && ExecutionsSound(db) && TotpSound(db)
  }

  /** Rows only move along the edges of the state machines, and never vanish;
      new rows start issued and unused, or consuming. */
  ghost predicate Advances(db: Tables, next: Tables) {
    && (forall id <- db.capabilities ::
          id in next.capabilities && RowAdvances(db.capabilities[id], next.capabilities[id]))
    && (forall id <- next.capabilities ::
          id !in db.capabilities ==> next.capabilities[id].state == Issued && next.capabilities[id].usedCount == 0)
    && (forall e <- db.executions :: e in next.executions && RunAdvances(db.executions[e], next.executions[e]))
    && (forall e <- next.executions ::
          e !in db.executions ==>
            && next.executions[e].state == Consuming
            && next.executions[e].capability in db.capabilities
            && db.capabilities[next.executions[e].capability].IsLive())
  }

  ghost predicate RowAdvances(row: CapabilityRow, next: CapabilityRow) {
    && next == row.(state := next.state, usedCount := next.usedCount)
    && (next.state == row.state || row.state.CanBecome(next.state))
    && next.usedCount == row.usedCount + (if next.state == Consumed && row.state != Consumed then 1 else 0)
  }

  ghost predicate RunAdvances(row: ExecutionRow, next: ExecutionRow) {
    && next == row.(state := next.state)
    && (next.state == row.state || row.state.CanBecome(next.state))
  }

  ghost predicate Keeps(db: Tables, next: Tables) {
    Sound(next) && Advances(db, next)
  }

  lemma ApplyKeeps(db: Tables, op: Op)
    requires Sound(db)
    ensures Keeps(db, Apply(db, op))
  {
    hide *;
    match op {
      case OpRevokeOtherPolicies(hash) => SweepKeeps(db, op);
      case OpRevokeSession(session) => SweepKeeps(db, op);
      case OpRecover => SweepKeeps(db, op);
      case OpConsume(id, execution, step) => ExecutionOpKeeps(db, op);
      case OpFinish(execution, completed) => ExecutionOpKeeps(db, op);
      case _ => RowOpKeeps(db, op);
    }
  }

  lemma SweepKeeps(db: Tables, op: Op)
    requires Sound(db) && (op.OpRevokeOtherPolicies? || op.OpRevokeSession? || op.OpRecover?)
    ensures Keeps(db, Apply(db, op))
  {
    assert Swept(db, Apply(db, op));
    RowsSwept(db, Apply(db, op));
  }

  lemma ExecutionOpKeeps(db: Tables, op: Op)
    requires Sound(db) && (op.OpConsume? || op.OpFinish?)
    ensures Keeps(db, Apply(db, op))
  {
    NothingHappens(db);
    match op
    case OpConsume(id, execution, step) =>
      if ConsumeWithExecution(db, id, execution, step).Some? {
        ConsumeIsSound(db, id, execution, step);
        ConsumeAdvances(db, id, execution, step);
      }
    case OpFinish(execution, completed) =>
      if FinishExecution(db, execution, Completed).Some? {
        ExecutionFinished(db, execution, if completed then Completed else Failed);
      }
  }

  lemma RowOpKeeps(db: Tables, op: Op)
    requires Sound(db)
    requires op.OpInsertCapability? || op.OpConsumeOAuth? || op.OpRevoke? || op.OpInsertApproval? || op.OpDecide?
    ensures Keeps(db, Apply(db, op))
  {
    NothingHappens(db);
    match op
    case OpInsertCapability(id, request, session, policyHash, maxUses, boot) =>
      if id !in db.capabilities {
        RowWritten(db, id, CapabilityRow(request, session, policyHash, Issued, maxUses, 0, boot));
      }
    case OpConsumeOAuth(id) =>
      if Consumable(db, id) {
        RowWritten(db, id, Spent(db.capabilities[id]));
      }
    case OpRevoke(id) =>
      if id in db.capabilities && db.capabilities[id].IsLive() {
        RowWritten(db, id, db.capabilities[id].(state := Revoked));
      }
    case OpInsertApproval(id, request, boot) =>
    case OpDecide(id, decision) =>
  }

  lemma NothingHappens(db: Tables)
    requires Sound(db)
    ensures Keeps(db, db)
    ensures forall approvals :: Keeps(db, db.(approvals := approvals))
  {
    forall approvals
      ensures Keeps(db, db.(approvals := approvals))
    {
      SameOwners(db, db.(approvals := approvals));
    }
    assert db == db.(approvals := db.approvals);
  }

  lemma RowWritten(db: Tables, id: Id, row: CapabilityRow)
    requires Sound(db)
    requires id in db.capabilities ==> RowAdvances(db.capabilities[id], row) && db.capabilities[id].state != Consumed
    requires id !in db.capabilities ==> row.state == Issued && row.usedCount == 0
    requires row.usedCount <= row.maxUses
    ensures Keeps(db, db.(capabilities := db.capabilities[id := row]))
  {
    SameOwners(db, db.(capabilities := db.capabilities[id := row]));
  }

  predicate Closed(row: CapabilityRow, next: CapabilityRow) {
    next == row || (row.IsLive() && (next == row.(state := Revoked) || next == row.(state := CapabilityState.Expired)))
  }

  /** A sweep closes live rows, and may interrupt running executions. */
  ghost predicate Swept(db: Tables, next: Tables) {
    && next.totp == db.totp
    && next.capabilities.Keys == db.capabilities.Keys && next.executions.Keys == db.executions.Keys
    && (forall id <- db.capabilities :: Closed(db.capabilities[id], next.capabilities[id]))
    && (forall e <- db.executions ::
          next.executions[e] == db.executions[e] || next.executions[e] == Interrupted(db.executions[e]))
  }

  lemma RowsSwept(db: Tables, next: Tables)
    requires Sound(db) && Swept(db, next)
    ensures Keeps(db, next)
  {
    SweptIsSound(db, next);
    SweptAdvances(db, next);
  }

  lemma SweptIsSound(db: Tables, next: Tables)
    requires Sound(db) && Swept(db, next)
    ensures Sound(next)
  {
    SameOwners(db, next);
  }

  lemma SweptAdvances(db: Tables, next: Tables)
    requires ExecutionsSound(db) && Swept(db, next)
    ensures Advances(db, next)
  {
    forall e <- db.executions
      ensures RunAdvances(db.executions[e], next.executions[e])
    {
      assert db.executions[e].state != Prepared;
    }
  }

  lemma ExecutionFinished(db: Tables, execution: Id, outcome: ExecutionState)
    requires Sound(db) && (outcome == Completed || outcome == Failed)
    requires execution in db.executions && db.executions[execution].state == Consuming
    ensures Keeps(db, db.(executions := db.executions[execution := db.executions[execution].(state := outcome)]))
  {
    SameOwners(db, db.(executions := db.executions[execution := db.executions[execution].(state := outcome)]));
  }

  lemma ConsumeAdvances(db: Tables, id: Id, execution: Id, step: Option<TotpStep>)
    requires ConsumeWithExecution(db, id, execution, step).Some?
    ensures Advances(db, ConsumeWithExecution(db, id, execution, step).value)
  {
  }

  /** Changing states alone disturbs none of the correspondences. */
  lemma SameOwners(db: Tables, next: Tables)
    requires ExecutionsSound(db) && TotpSound(db)
    requires next.executions.Keys == db.executions.Keys && next.totp == db.totp
    requires forall e <- db.executions ::
               next.executions[e] == db.executions[e].(state := next.executions[e].state)
               && next.executions[e].state != Prepared
    requires forall id <- db.capabilities ::
               && id in next.capabilities
               && (db.capabilities[id].state == Consumed ==> next.capabilities[id].state == Consumed)
    ensures ExecutionsSound(next) && TotpSound(next)
  {
    forall e <- next.executions, f <- next.executions | next.executions[e].capability == next.executions[f].capability
      ensures e == f
    {
      assert db.executions[e].capability == db.executions[f].capability;
    }
    forall k, e
      ensures IssuedTo(next, k, e) <==> ClaimedBy(next, k, e)
    {
      assert IssuedTo(db, k, e) <==> ClaimedBy(db, k, e);
    }
  }

  lemma ConsumeIsSound(db: Tables, id: Id, execution: Id, step: Option<TotpStep>)
    requires Sound(db) && ConsumeWithExecution(db, id, execution, step).Some?
    ensures Sound(ConsumeWithExecution(db, id, execution, step).value)
  {
    var next := ConsumeWithExecution(db, id, execution, step).value;
    assert forall e <- db.executions :: db.executions[e].capability != id;
    assert ExecutionsSound(next);
    forall k, e
      ensures IssuedTo(next, k, e) <==> ClaimedBy(next, k, e)
    {
      assert IssuedTo(db, k, e) <==> ClaimedBy(db, k, e);
    }
  }

  /** A row that can still be used has not been used: every use ends it. */
  ghost predicate LiveUnused(db: Tables) {
    forall id <- db.capabilities :: db.capabilities[id].IsLive() ==> db.capabilities[id].usedCount == 0
  }

  lemma ApplyKeepsUnused(db: Tables, op: Op)
    requires LiveUnused(db)
    ensures LiveUnused(Apply(db, op))
  {
  }

  /** Over any sequence of transactions the tables stay sound. */
  lemma {:induction false} RunKeeps(db: Tables, ops: seq<Op>)
    requires Sound(db)
    ensures Sound(Run(db, ops))
    decreases |ops|
  {
    if ops != [] {
      ApplyKeeps(db, ops[0]);
      RunKeeps(Apply(db, ops[0]), ops[1..]);
    }
  }

  /** A terminal row is final: it is never written again, and no execution is
      ever started for it. */
  lemma {:induction false} TerminalRowsAreFinal(db: Tables, ops: seq<Op>, id: Id)
    requires Sound(db)
    requires id in db.capabilities && db.capabilities[id].state.IsTerminal()
    ensures var after := Run(db, ops);
            && id in after.capabilities && after.capabilities[id] == db.capabilities[id]
            && (forall e <- db.executions :: e in after.executions
                                             && after.executions[e].capability == db.executions[e].capability)
            && (forall e <- after.executions :: after.executions[e].capability == id ==> e in db.executions)
    decreases |ops|
  {
    if ops != [] {
      var next := Apply(db, ops[0]);
      ApplyKeeps(db, ops[0]);
      TerminalRowStays(db, next, id);
      TerminalRowsAreFinal(next, ops[1..], id);
    }
  }

  lemma TerminalRowStays(db: Tables, next: Tables, id: Id)
    requires Advances(db, next)
    requires id in db.capabilities && db.capabilities[id].state.IsTerminal()
    ensures id in next.capabilities && next.capabilities[id] == db.capabilities[id]
    ensures forall e <- db.executions :: e in next.executions
                                         && next.executions[e].capability == db.executions[e].capability
    ensures forall e <- next.executions :: next.executions[e].capability == id ==> e in db.executions
  {
  }

  lemma {:induction false} FinishedExecutionsAreFinal(db: Tables, ops: seq<Op>, e: Id)
    requires Sound(db)
    requires e in db.executions && db.executions[e].state.IsTerminal()
    ensures e in Run(db, ops).executions && Run(db, ops).executions[e] == db.executions[e]
    decreases |ops|
  {
    if ops != [] {
      ApplyKeeps(db, ops[0]);
      FinishedExecutionsAreFinal(Apply(db, ops[0]), ops[1..], e);
    }
  }

  /** Recovery leaves nothing usable and nothing running, and loses no use. */
  lemma RecoveryEndsEverything(db: Tables)
    ensures var next := Recover(db);
            && next.capabilities.Keys == db.capabilities.Keys && next.executions.Keys == db.executions.Keys
            && (forall id <- next.capabilities :: next.capabilities[id].state.IsTerminal()
                                                  && next.capabilities[id].usedCount == db.capabilities[id].usedCount)
            && (forall e <- next.executions :: next.executions[e].state.IsTerminal()
                                               && next.executions[e].capability == db.executions[e].capability)
  {
  }

  /** A policy sweep leaves no live row of another policy, and every row of the
      policy itself, and every ended row, as it was. */
  lemma ReloadSweepsExactly(db: Tables, hash: Bytes)
    ensures var next := RevokeOtherPolicies(db, hash);
            && next.capabilities.Keys == db.capabilities.Keys
            && (forall id <- next.capabilities ::
                  next.capabilities[id].IsLive() ==> next.capabilities[id].policyHash == hash)
            && (forall id <- db.capabilities ::
                  db.capabilities[id].policyHash == hash || !db.capabilities[id].IsLive()
                  ==> next.capabilities[id] == db.capabilities[id])
  {
  }

  /** A capability minted before a restart is never consumed after it. */
  lemma RestartEndsCapabilities(db: Tables, ops: seq<Op>, id: Id)
    requires Sound(db) && id in db.capabilities
    ensures var after := Run(db, [OpRecover] + ops);
            && id in after.capabilities
            && after.capabilities[id].usedCount == db.capabilities[id].usedCount
            && !after.capabilities[id].IsLive()
            && (forall e <- after.executions :: after.executions[e].capability == id ==> e in db.executions)
  {
    var next := Apply(db, OpRecover);
    ApplyKeeps(db, OpRecover);
    assert ([OpRecover] + ops)[1..] == ops;
    TerminalRowsAreFinal(next, ops, id);
  }

  /** Nor is one minted before a committed reload to another policy. */
  lemma ReloadEndsCapabilities(db: Tables, ops: seq<Op>, hash: Bytes, id: Id)
    requires Sound(db) && id in db.capabilities && db.capabilities[id].policyHash != hash
    ensures var after := Run(db, [OpRevokeOtherPolicies(hash)] + ops);
            && id in after.capabilities
            && after.capabilities[id].usedCount == db.capabilities[id].usedCount
            && !after.capabilities[id].IsLive()
            && (forall e <- after.executions :: after.executions[e].capability == id ==> e in db.executions)
  {
    var next := Apply(db, OpRevokeOtherPolicies(hash));
    ApplyKeeps(db, OpRevokeOtherPolicies(hash));
    assert ([OpRevokeOtherPolicies(hash)] + ops)[1..] == ops;
    TerminalRowsAreFinal(next, ops, id);
  }

  /** Two executions never share a time step of one credential, and a recorded
      issuance names the one execution that claimed it. */
  lemma TimeStepsAreNotShared(db: Tables, ops: seq<Op>, e: Id, f: Id, step: TotpStep)
    requires Sound(db)
    requires ClaimedBy(Run(db, ops), step, e) && (ClaimedBy(Run(db, ops), step, f) || IssuedTo(Run(db, ops), step, f))
    ensures e == f && IssuedTo(Run(db, ops), step, e)
  {
    hide Run, UsesBounded, ExecutionsSound, ClaimedBy;
    RunKeeps(db, ops);
    assert IssuedTo(Run(db, ops), step, e) <==> ClaimedBy(Run(db, ops), step, e);
    assert IssuedTo(Run(db, ops), step, f) <==> ClaimedBy(Run(db, ops), step, f);
  }

  /** A consume that loses the race for its capability or its time step leaves
      neither an execution nor an issuance behind. */
  lemma LosingConsumeLeavesNothing(db: Tables, id: Id, execution: Id, step: Option<TotpStep>)
    requires Sound(db)
    ensures var next := Apply(db, OpConsume(id, execution, step));
            if Consumable(db, id) && execution !in db.executions && (step.Some? ==> step.value !in db.totp)
            then next.executions.Keys == db.executions.Keys + {execution} && next.executions[execution].claimed == step
            else next == db
  {
    forall k <- db.totp
      ensures db.totp[k] in db.executions
    {
      assert IssuedTo(db, k, db.totp[k]);
    }
  }
}
