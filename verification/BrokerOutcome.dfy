/** Outcomes in memory and in the store. A report is taken even when the store no
    longer accepts it: a second report of success turns the outcome in memory
    into lost evidence, while the row keeps what it said first. */
module BrokerOutcome {
  import opened ByteStrings
  import opened Wrappers
  import opened Domain
  import opened Broker
  import opened BrokerFrame
  import opened BrokerReach
  import opened BrokerProgress
  import Audit
  import BrokerDurable
  import Ledger
  import Store

  /** What a finished row may be reported as. */
  predicate Settles(row: ExecutionState, outcome: ExecutionState) {
    outcome == CompletedEvidenceLost || (outcome == row && row.IsTerminal())
  }

  /** Memory has not heard yet, or says what the row says, or that the evidence
      was lost. */
  predicate Told(row: ExecutionState, memory: ExecutionState) {
    memory == Consuming || Settles(row, memory)
  }

  ghost predicate AllTold(executions: map<Id, Execution>, runs: map<Id, Store.ExecutionRow>) {
    forall e <- executions :: e in runs && Told(runs[e].state, executions[e].state)
  }

  predicate PointTold(p: Point, executions: map<Id, Execution>, runs: map<Id, Store.ExecutionRow>) {
    match p
    case RowConsumed(e, _) => e in runs
    case EntryConsumed(e, _) => e in runs
    case Finishing(e, _) => e in executions
    case RowFinished(e, outcome) => e in executions && e in runs && Settles(runs[e].state, outcome)
    case _ => true
  }

  ghost predicate PointsTold(
    threads: map<nat, Point>, executions: map<Id, Execution>, runs: map<Id, Store.ExecutionRow>)
  {
    forall t <- threads :: PointTold(threads[t], executions, runs)
  }

  ghost predicate OutcomesOk(s: State) {
    AllTold(s.executions, s.db.executions) && PointsTold(s.threads, s.executions, s.db.executions)
  }

  /** Rows stay, and finished ones say the same for ever. */
  ghost predicate RunsPersist(runs: map<Id, Store.ExecutionRow>, runs': map<Id, Store.ExecutionRow>) {
    forall e <- runs :: e in runs' && (runs[e].state.IsTerminal() ==> runs'[e].state == runs[e].state)
  }

  lemma StepRuns(env: Env, s: State, step: Step)
    requires Store.Sound(s.db)
    ensures RunsPersist(s.db.executions, Next(env, s, step).db.executions)
  {
    hide Next, Store.Sound;
    BrokerDurable.SoundStep(env, s, step);
  }

  /** Where a thread may be after a step that keeps outcomes in order. */
  ghost predicate Follows(s: State, s': State, t: nat) {
    || s'.threads == s.threads || s'.threads == s.threads - {t}
    || (t in s'.threads && s'.threads == s.threads[t := s'.threads[t]]
        && PointTold(s'.threads[t], s'.executions, s'.db.executions))
  }

  lemma StaysTold(s: State, s': State, t: nat)
    requires OutcomesOk(s) && RunsPersist(s.db.executions, s'.db.executions)
    requires s.executions.Keys <= s'.executions.Keys && AllTold(s'.executions, s'.db.executions)
    requires Follows(s, s', t)
    ensures OutcomesOk(s')
  {
    forall u <- s'.threads
      ensures PointTold(s'.threads[u], s'.executions, s'.db.executions)
    {
      assert u in s.threads ==> PointTold(s.threads[u], s.executions, s.db.executions);
    }
  }

  lemma MemoryStaysTold(s: State, runs: map<Id, Store.ExecutionRow>)
    requires OutcomesOk(s) && RunsPersist(s.db.executions, runs)
    ensures AllTold(s.executions, runs)
  {
  }

  predicate Idle(step: Step) {
    match step
    case Consume(_, DoConsumeRow(_, _, _)) => false
    case Consume(_, DoTrackExecution) => false
    case Finish(_, DoFinishRow(_, _)) => false
    case Finish(_, DoWriteExecution) => false
    case World(DoRestart(_, _, _)) => false
    case _ => true
  }

  lemma IdleWrites(step: Step)
    requires Idle(step)
    ensures !IsRestart(step) && Part.Executions !in Written(step)
  {
  }

  lemma PointCarried(s: State, step: Step, t: nat, q: Point)
    requires OutcomesOk(s) && Idle(step) && Leads(s, step, Was(s, t), q)
    ensures PointTold(q, s.executions, s.db.executions)
  {
    hide Settles;
    assert t in s.threads ==> PointTold(s.threads[t], s.executions, s.db.executions);
  }

  lemma PointStaysTold(p: Point, executions: map<Id, Execution>, runs: map<Id, Store.ExecutionRow>,
                       runs': map<Id, Store.ExecutionRow>)
    requires PointTold(p, executions, runs) && RunsPersist(runs, runs')
    ensures PointTold(p, executions, runs')
  {
  }

  lemma IdleKeeps(env: Env, s: State, step: Step)
    requires OutcomesOk(s) && Store.Sound(s.db) && Idle(step)
    ensures OutcomesOk(Next(env, s, step))
  {
    hide Next, Leads, Idle, Written, PointTold, AllTold, OutcomesOk, RunsPersist, Store.Sound;
    var s' := Next(env, s, step);
    IdleWrites(step);
    StepFrame(env, s, step);
    StepMoves(env, s, step);
    StepRuns(env, s, step);
    MemoryStaysTold(s, s'.db.executions);
    match Actor(step)
    case None => StaysTold(s, s', 0);
    case Some(t) =>
      if s'.threads != s.threads && s'.threads != s.threads - {t} {
        PointCarried(s, step, t, s'.threads[t]);
        PointStaysTold(s'.threads[t], s.executions, s.db.executions, s'.db.executions);
      }
      StaysTold(s, s', t);
  }

  lemma ConsumeRowFollows(env: Env, s: State, t: nat, execution: Id, content: Ledger.EventContent, stored: bool)
    ensures Follows(s, ConsumeRow(env, s, t, execution, content, stored), t)
  {
    hide Transact, TotpClaim;
  }

  lemma FinishRowFollows(env: Env, s: State, t: nat, content: Ledger.EventContent, stored: bool)
    requires OutcomesOk(s)
    ensures Follows(s, FinishRow(env, s, t, content, stored), t)
  {
    hide Transact, Ledger.CreateEvent;
    assert t in s.threads ==> PointTold(s.threads[t], s.executions, s.db.executions);
  }

  lemma ConsumeRowKeeps(env: Env, s: State, t: nat, execution: Id, content: Ledger.EventContent, stored: bool)
    requires OutcomesOk(s) && Store.Sound(s.db)
    ensures OutcomesOk(ConsumeRow(env, s, t, execution, content, stored))
  {
    hide ConsumeRow, OutcomesOk, Store.Sound, RunsPersist, AllTold, Follows;
    var s' := ConsumeRow(env, s, t, execution, content, stored);
    StepRuns(env, s, Consume(t, DoConsumeRow(execution, content, stored)));
    MemoryStaysTold(s, s'.db.executions);
    ConsumeRowFollows(env, s, t, execution, content, stored);
    StaysTold(s, s', t);
  }

  lemma FinishRowKeeps(env: Env, s: State, t: nat, content: Ledger.EventContent, stored: bool)
    requires OutcomesOk(s) && Store.Sound(s.db)
    ensures OutcomesOk(FinishRow(env, s, t, content, stored))
  {
    hide FinishRow, OutcomesOk, Store.Sound, RunsPersist, AllTold, Follows;
    var s' := FinishRow(env, s, t, content, stored);
    StepRuns(env, s, Finish(t, DoFinishRow(content, stored)));
    MemoryStaysTold(s, s'.db.executions);
    FinishRowFollows(env, s, t, content, stored);
    StaysTold(s, s', t);
  }

  lemma SameRuns(runs: map<Id, Store.ExecutionRow>)
    ensures RunsPersist(runs, runs)
  {
  }

  /** A thread wrote one outcome that goes with its row, and went on. */
  ghost predicate WritesOutcome(s: State, s': State, t: nat) {
    && s'.db == s.db && s.executions.Keys <= s'.executions.Keys
    && AllTold(s'.executions, s.db.executions) && Follows(s, s', t)
  }

  lemma TrackWrites(s: State, t: nat)
    requires OutcomesOk(s)
    ensures WritesOutcome(s, TrackExecution(s, t), t)
  {
    hide Settles;
    assert t in s.threads ==> PointTold(s.threads[t], s.executions, s.db.executions);
  }

  lemma ConcludeWrites(s: State, t: nat)
    requires OutcomesOk(s)
    ensures WritesOutcome(s, WriteExecution(s, t), t)
  {
    hide Settles;
    assert t in s.threads ==> PointTold(s.threads[t], s.executions, s.db.executions);
  }

  lemma WrittenKeeps(s: State, s': State, t: nat)
    requires OutcomesOk(s) && WritesOutcome(s, s', t)
    ensures OutcomesOk(s')
  {
    hide OutcomesOk, AllTold, Follows, RunsPersist;
    SameRuns(s.db.executions);
    StaysTold(s, s', t);
  }

  lemma TrackExecutionKeeps(s: State, t: nat)
    requires OutcomesOk(s)
    ensures OutcomesOk(TrackExecution(s, t))
  {
    hide OutcomesOk, TrackExecution, WritesOutcome;
    TrackWrites(s, t);
    WrittenKeeps(s, TrackExecution(s, t), t);
  }

  lemma WriteExecutionKeeps(s: State, t: nat)
    requires OutcomesOk(s)
    ensures OutcomesOk(WriteExecution(s, t))
  {
    hide OutcomesOk, WriteExecution, WritesOutcome;
    ConcludeWrites(s, t);
    WrittenKeeps(s, WriteExecution(s, t), t);
  }

  lemma RestartKeeps(s: State, signer: Ledger.Signer, policyHash: Bytes, hashRead: bool)
    ensures OutcomesOk(Restart(s, signer, policyHash, hashRead))
  {
    hide Ledger.Reopen, Store.Recover;
  }

  lemma StepKeeps(env: Env, s: State, step: Step)
    requires OutcomesOk(s) && Store.Sound(s.db)
    ensures OutcomesOk(Next(env, s, step))
  {
    hide OutcomesOk, Store.Sound, ConsumeRow, TrackExecution, FinishRow, WriteExecution, Restart;
    match step
    case Consume(t, DoConsumeRow(execution, content, stored)) =>
      ConsumeRowKeeps(env, s, t, execution, content, stored);
    case Consume(t, DoTrackExecution) => TrackExecutionKeeps(s, t);
    case Finish(t, DoFinishRow(content, stored)) => FinishRowKeeps(env, s, t, content, stored);
    case Finish(t, DoWriteExecution) => WriteExecutionKeeps(s, t);
    case World(DoRestart(signer, policyHash, hashRead)) => RestartKeeps(s, signer, policyHash, hashRead);
    case _ => IdleKeeps(env, s, step);
  }

  lemma {:induction false} RunKeeps(env: Env, s: State, steps: seq<Step>)
    requires OutcomesOk(s) && Store.Sound(s.db)
    ensures OutcomesOk(Run(env, s, steps)) && Store.Sound(Run(env, s, steps).db)
    decreases |steps|
  {
    hide Next, OutcomesOk, Store.Sound;
    if steps != [] {
      StepKeeps(env, s, steps[0]);
      BrokerDurable.SoundStep(env, s, steps[0]);
      RunKeeps(env, Next(env, s, steps[0]), steps[1..]);
    }
  }

  lemma InitialIsOk(signer: Ledger.Signer, policyHash: Bytes)
    ensures OutcomesOk(Initial(signer, policyHash)) && Store.Sound(Initial(signer, policyHash).db)
  {
    hide Audit.Genesis;
  }

  /** In every reachable state the outcome in memory is the one of the row, or
      not there yet, or lost evidence. */
  lemma MemoryOutcomes(env: Env, signer: Ledger.Signer, policyHash: Bytes, steps: seq<Step>)
    ensures var s := Run(env, Initial(signer, policyHash), steps); AllTold(s.executions, s.db.executions)
  {
    hide Run, Initial, Store.Sound, AllTold, PointsTold;
    InitialIsOk(signer, policyHash);
    RunKeeps(env, Initial(signer, policyHash), steps);
  }

  // -------------------------------------------------------------- late reports

  /** The other handlers of the process, while thread `t` rests. */
  ghost predicate Others(steps: seq<Step>, t: nat) {
    forall i :: 0 <= i < |steps| ==> !IsRestart(steps[i]) && Actor(steps[i]) != Some(t)
  }

  /** A report of success is taken whatever the store says, if only a record of
      it could be made. */
  predicate Acknowledged(env: Env, s: State, completed: bool, content: Ledger.EventContent) {
    completed && Ledger.CreateEvent(env.crypto, s.log, content).Some?
  }

  /** The store refuses a result for a finished row. */
  lemma LateResult(env: Env, s: State, t: nat, content: Ledger.EventContent, stored: bool)
    requires t in s.threads && s.threads[t].Finishing? && s.threads[t].execution in s.db.executions
    requires s.db.executions[s.threads[t].execution].state.IsTerminal()
    ensures var s', p := Next(env, s, Finish(t, DoFinishRow(content, stored))), s.threads[t];
            s' == s.(threads := if Acknowledged(env, s, p.completed, content)
                                then s.threads[t := RowFinished(p.execution, CompletedEvidenceLost)]
                                else s.threads - {t})
  {
    hide Next, Ledger.CreateEvent;
    FinishIs(env, s, t, DoFinishRow(content, stored));
  }

  lemma ExecutionsStay(env: Env, s: State, step: Step, e: Id)
    requires e in s.executions && !IsRestart(step)
    ensures e in Next(env, s, step).executions
  {
    hide Next, Written;
    if Part.Executions in Written(step) {
      OnlyTheseWrite(step);
      WritersKeep(env, s, step, e);
    } else {
      StepFrame(env, s, step);
    }
  }

  predicate WritesExecutions(step: Step) {
    (step.Consume? && step.consume.DoTrackExecution?) || (step.Finish? && step.finish.DoWriteExecution?)
  }

  lemma OnlyTheseWrite(step: Step)
    requires Part.Executions in Written(step)
    ensures WritesExecutions(step)
  {
  }

  lemma WritersKeep(env: Env, s: State, step: Step, e: Id)
    requires e in s.executions && WritesExecutions(step)
    ensures e in Next(env, s, step).executions
  {
  }

  /** Nobody else moves a thread, or forgets an execution. */
  lemma {:induction false} OthersLeave(env: Env, s: State, steps: seq<Step>, t: nat, e: Id)
    requires e in s.executions && Others(steps, t)
    ensures e in Run(env, s, steps).executions && Was(Run(env, s, steps), t) == Was(s, t)
    decreases |steps|
  {
    hide Next, Actor, Leads;
    if steps != [] {
      ExecutionsStay(env, s, steps[0], e);
      StepMoves(env, s, steps[0]);
      OthersLeave(env, Next(env, s, steps[0]), steps[1..], t, e);
    }
  }

  lemma Writes(env: Env, s: State, t: nat)
    requires t in s.threads ==> s.threads[t].RowFinished? && s.threads[t].execution in s.executions
    ensures var s' := Next(env, s, Finish(t, DoWriteExecution));
            && (t !in s.threads ==> s' == s)
            && (t in s.threads ==>
                  var e := s.threads[t].execution;
                  s'.executions == s.executions[e := s.executions[e].(state := s.threads[t].outcome)])
  {
    hide Next;
    FinishIs(env, s, t, DoWriteExecution);
  }

  /** A report on an execution whose row is finished, in any reachable state and
      with any other handlers at work before its second block: the outcome in
      memory changes if and only if success is reported, a record of it can be
      made, and the evidence is not already lost. The row keeps what it said. */
  lemma LateReportIff(
    env: Env, signer: Ledger.Signer, policyHash: Bytes, past: seq<Step>, t: nat, e: Id, completed: bool,
    content: Ledger.EventContent, stored: bool, others: seq<Step>)
    requires var s := Run(env, Initial(signer, policyHash), past);
             && t in s.threads && s.threads[t] == Finishing(e, completed)
             && e in s.db.executions && s.db.executions[e].state.IsTerminal()
    requires Others(others, t)
    ensures var s := Run(env, Initial(signer, policyHash), past);
            var refused := Next(env, s, Finish(t, DoFinishRow(content, stored)));
            var between := Run(env, refused, others);
            var after := Next(env, between, Finish(t, DoWriteExecution));
            && refused == s.(threads := refused.threads)
            && e in between.executions && e in after.executions
            && (after.executions[e].state != between.executions[e].state
                <==> Acknowledged(env, s, completed, content) && between.executions[e].state != CompletedEvidenceLost)
            && (after.executions != between.executions <==> after.executions[e].state != between.executions[e].state)
            && (!Acknowledged(env, s, completed, content) ==> after == between)
            && e in after.db.executions && after.db.executions[e] == s.db.executions[e]
  {
    hide Run, Next, Initial, OutcomesOk, Store.Sound, Acknowledged;
    var s := Run(env, Initial(signer, policyHash), past);
    var refused := Next(env, s, Finish(t, DoFinishRow(content, stored)));
    var between := Run(env, refused, others);
    InitialIsOk(signer, policyHash);
    RunKeeps(env, Initial(signer, policyHash), past);
    FinishingKnown(s, t);
    LateResult(env, s, t, content, stored);
    OthersLeave(env, refused, others, t, e);
    Writes(env, between, t);
    RowKept(env, refused, others, Finish(t, DoWriteExecution), e);
  }

  lemma FinishingKnown(s: State, t: nat)
    requires OutcomesOk(s) && t in s.threads && s.threads[t].Finishing?
    ensures s.threads[t].execution in s.executions
  {
    assert PointTold(s.threads[t], s.executions, s.db.executions);
  }

  lemma RowKept(env: Env, s: State, steps: seq<Step>, last: Step, e: Id)
    requires Store.Sound(s.db) && e in s.db.executions && s.db.executions[e].state.IsTerminal()
    ensures var after := Next(env, Run(env, s, steps), last);
            e in after.db.executions && after.db.executions[e] == s.db.executions[e]
  {
    hide Run, Next, Store.Sound;
    BrokerDurable.FinishedStaysFinished(env, s, steps, e);
    BrokerDurable.RunIsSound(env, s, steps);
    BrokerDurable.SoundStep(env, Run(env, s, steps), last);
  }
}
