/** One-time codes over whole runs: the consume claims the time step of its one
    reading of the clock, and the code that is handed over later is for that very
    step, whatever else the broker does in between. */
module BrokerCodes {
  import opened ByteStrings
  import opened Wrappers
  import opened Domain
  import opened Broker
  import opened BrokerFrame
  import Audit
  import BrokerDurable
  import Ledger
  import Store
  import Totp

  /** The execution a thread is releasing for, and what it goes on using. */
  function UseOf(p: Point): Option<(Id, Use)> {
    match p
    case RowConsumed(e, use) => Some((e, use))
    case EntryConsumed(e, use) => Some((e, use))
    case Releasing(e, use) => Some((e, use))
    case _ => None
  }

  /** The execution row claims what this use makes a code for, and was consumed
      at the instant the use was checked at. */
  predicate Claimed(runs: map<Id, Store.ExecutionRow>, consumed: map<Id, Consumption>, e: Id, use: Use) {
    && e in runs && runs[e].claimed == TotpClaim(use)
    && e in consumed && consumed[e].at == use.now
  }

  predicate PointClaimed(p: Point, runs: map<Id, Store.ExecutionRow>, consumed: map<Id, Consumption>) {
    UseOf(p).Some? ==> Claimed(runs, consumed, UseOf(p).value.0, UseOf(p).value.1)
  }

  ghost predicate PointsClaimed(
    threads: map<nat, Point>, runs: map<Id, Store.ExecutionRow>, consumed: map<Id, Consumption>)
  {
    forall t <- threads :: PointClaimed(threads[t], runs, consumed)
  }

  /** The code is the one of its step, made with metadata the broker accepts. */
  predicate Genuine(env: Env, code: Code) {
    code.generator.Supported() && code.text == Totp.CodeText(code.generator, env.hmac, code.seed, code.step)
  }

  /** The step of the code is the claimed one, and contains the instant at which
      the consume was checked, with two more seconds to run. */
  predicate CodeOk(env: Env, runs: map<Id, Store.ExecutionRow>, consumed: map<Id, Consumption>, e: Id, code: Code) {
    && e in runs && runs[e].claimed == Some((code.credential, code.step))
    && Genuine(env, code)
    && e in consumed && Totp.TimeStep(code.generator, Unix(consumed[e].at)).0 == code.step
    && Totp.TimeStep(code.generator, Unix(consumed[e].at)).1 >= Totp.MARGIN
  }

  ghost predicate AllCodesOk(
    env: Env, runs: map<Id, Store.ExecutionRow>, consumed: map<Id, Consumption>, codes: map<Id, Code>)
  {
    forall e <- codes :: CodeOk(env, runs, consumed, e, codes[e])
  }

  /** What was released for a claimed step was a code. */
  ghost predicate ReleasesCoded(runs: map<Id, Store.ExecutionRow>, released: seq<Id>, codes: map<Id, Code>) {
    forall e <- released :: e in runs && (runs[e].claimed.Some? ==> e in codes)
  }

  ghost predicate CodesOk(env: Env, s: State) {
    && PointsClaimed(s.threads, s.db.executions, s.history.consumed)
    && AllCodesOk(env, s.db.executions, s.history.consumed, s.history.codes)
    && ReleasesCoded(s.db.executions, s.history.released, s.history.codes)
  }

  // ------------------------------------------------------------- quiet steps

  /** Executions stay, and new ones may be added; what was consumed stays. */
  ghost predicate Grows(s: State, s': State) {
    && (forall e <- s.db.executions ::
          e in s'.db.executions && s'.db.executions[e].claimed == s.db.executions[e].claimed)
    && (forall e <- s.db.executions :: e in s.history.consumed ==>
          e in s'.history.consumed && s'.history.consumed[e] == s.history.consumed[e])
  }

  predicate NoUseGained(s: State, t: nat, q: Point) {
    UseOf(q).Some? ==> t in s.threads && UseOf(s.threads[t]) == UseOf(q)
  }

  ghost predicate ThreadQuiet(s: State, s': State, t: nat) {
    s'.threads == s.threads || s'.threads == s.threads - {t}
    || (t in s'.threads && s'.threads == s.threads[t := s'.threads[t]]
        && (NoUseGained(s, t, s'.threads[t])
            || PointClaimed(s'.threads[t], s'.db.executions, s'.history.consumed)))
  }

  lemma PointsStayClaimed(s: State, s': State, t: nat)
    requires PointsClaimed(s.threads, s.db.executions, s.history.consumed)
    requires Grows(s, s') && ThreadQuiet(s, s', t)
    ensures PointsClaimed(s'.threads, s'.db.executions, s'.history.consumed)
  {
    hide UseOf, TotpClaim;
    forall u <- s'.threads
      ensures PointClaimed(s'.threads[u], s'.db.executions, s'.history.consumed)
    {
      assert u in s.threads ==> PointClaimed(s.threads[u], s.db.executions, s.history.consumed);
    }
  }

  lemma CodesStayOk(env: Env, s: State, s': State, codes: map<Id, Code>)
    requires AllCodesOk(env, s.db.executions, s.history.consumed, codes) && Grows(s, s')
    ensures AllCodesOk(env, s'.db.executions, s'.history.consumed, codes)
  {
    hide Genuine, Totp.TimeStep;
    forall e <- codes
      ensures CodeOk(env, s'.db.executions, s'.history.consumed, e, codes[e])
    {
      assert CodeOk(env, s.db.executions, s.history.consumed, e, codes[e]);
    }
  }

  lemma QuietKeeps(env: Env, s: State, s': State, t: nat)
    requires CodesOk(env, s) && Grows(s, s') && ThreadQuiet(s, s', t)
    requires s'.history.codes == s.history.codes && s'.history.released == s.history.released
    ensures CodesOk(env, s')
  {
    hide PointsClaimed, AllCodesOk, ThreadQuiet;
    PointsStayClaimed(s, s', t);
    CodesStayOk(env, s, s', s.history.codes);
  }

  // -------------------------------------------------------------- loud steps

  lemma ConsumeRowKeeps(
    env: Env, s: State, t: nat, execution: Id, content: Ledger.EventContent, stored: bool)
    requires CodesOk(env, s)
    ensures CodesOk(env, ConsumeRow(env, s, t, execution, content, stored))
  {
    hide Transact, TotpClaim, CodesOk;
    if t in s.threads && s.threads[t].Verified? {
      var use := s.threads[t].use;
      var s' := ConsumeRow(env, s, t, execution, content, stored);
      var id := use.capability.terms.id;
      if Transact(env, s, Store.ConsumeWithExecution(s.db, id, execution, TotpClaim(use)), content, stored).0 {
        assert UseOf(RowConsumed(execution, use)) == Some((execution, use));
        assert PointClaimed(RowConsumed(execution, use), s'.db.executions, s'.history.consumed);
      }
      QuietKeeps(env, s, s', t);
    }
  }

  /** The code made at the release is the code of the claimed step. */
  lemma MadeCodeIsOk(
    env: Env, runs: map<Id, Store.ExecutionRow>, consumed: map<Id, Consumption>, e: Id, use: Use, seed: Bytes)
    requires Claimed(runs, consumed, e, use) && MakeCode(env, use, seed).Some?
    ensures CodeOk(env, runs, consumed, e, MakeCode(env, use, seed).value)
  {
    hide Totp.CodeText;
  }

  lemma ReleaseKeeps(
    env: Env, s: State, t: nat, secret: Option<Bytes>, content: Ledger.EventContent, stored: bool)
    requires CodesOk(env, s)
    ensures CodesOk(env, Release(env, s, t, secret, content, stored))
  {
    hide Recorded, CodesOk, MakeCode, TotpClaim, FieldsReady, WithCode;
    if t in s.threads && s.threads[t].Releasing? {
      var p := s.threads[t];
      var s' := Release(env, s, t, secret, content, stored);
      if Recorded(env, s, content, stored && FieldsReady(env, p.use, secret)).0 {
        HandedOver(env, s, s', t, p.execution, p.use, secret);
      } else {
        QuietKeeps(env, s, s', t);
      }
    }
  }

  lemma HandedOver(env: Env, s: State, s': State, t: nat, e: Id, use: Use, secret: Option<Bytes>)
    requires CodesOk(env, s) && t in s.threads && UseOf(s.threads[t]) == Some((e, use))
    requires FieldsReady(env, use, secret)
    requires s'.threads == s.threads - {t} && s'.db == s.db && s'.history.consumed == s.history.consumed
    requires s'.history.released == s.history.released + [e]
    requires s'.history.codes == WithCode(env, s.history.codes, e, use, secret)
    ensures CodesOk(env, s')
  {
    hide MakeCode, CodeOk, UseOf;
    assert PointClaimed(s.threads[t], s.db.executions, s.history.consumed);
    if MakeCode(env, use, secret.value).Some? {
      MadeCodeIsOk(env, s.db.executions, s.history.consumed, e, use, secret.value);
    }
    PointsStayClaimed(s, s', t);
  }

  lemma RestartKeeps(env: Env, s: State, signer: Ledger.Signer, policyHash: Bytes, hashRead: bool)
    requires CodesOk(env, s)
    ensures CodesOk(env, Restart(s, signer, policyHash, hashRead))
  {
    hide Ledger.Reopen, CodeOk;
    var s' := Restart(s, signer, policyHash, hashRead);
    CodesStayOk(env, s, s', s.history.codes);
  }

  // --------------------------------------------------------------- all steps

  /** The steps that write none of the parts this invariant speaks of. */
  predicate Idle(step: Step) {
    match step
    case Consume(_, DoConsumeRow(_, _, _)) => false
    case Consume(_, DoRelease(_, _, _)) => false
    case World(DoRestart(_, _, _)) => false
    case _ => true
  }

  lemma IdleWrites(step: Step)
    requires Idle(step)
    ensures !IsRestart(step) && Written(step) !! {RunSet, Part.Codes, Part.Released, Consumptions}
  {
  }

  lemma UseCarried(s: State, step: Step, t: nat, q: Point)
    requires Idle(step) && Leads(s, step, Was(s, t), q)
    ensures NoUseGained(s, t, q)
  {
  }

  lemma IdleKeeps(env: Env, s: State, step: Step)
    requires CodesOk(env, s) && Idle(step)
    ensures CodesOk(env, Next(env, s, step))
  {
    hide Next, Leads, NoUseGained, CodesOk, Idle, Written;
    var s' := Next(env, s, step);
    IdleWrites(step);
    StepFrame(env, s, step);
    StepMoves(env, s, step);
    match Actor(step)
    case None => QuietKeeps(env, s, s', 0);
    case Some(t) =>
      if s'.threads != s.threads && s'.threads != s.threads - {t} {
        UseCarried(s, step, t, s'.threads[t]);
      }
      QuietKeeps(env, s, s', t);
  }

  lemma StepKeeps(env: Env, s: State, step: Step)
    requires CodesOk(env, s)
    ensures CodesOk(env, Next(env, s, step))
  {
    hide CodesOk, ConsumeRow, Release, Restart;
    match step
    case Consume(t, DoConsumeRow(execution, content, stored)) =>
      ConsumeRowKeeps(env, s, t, execution, content, stored);
    case Consume(t, DoRelease(secret, content, stored)) => ReleaseKeeps(env, s, t, secret, content, stored);
    case World(DoRestart(signer, policyHash, hashRead)) => RestartKeeps(env, s, signer, policyHash, hashRead);
    case _ => IdleKeeps(env, s, step);
  }

  lemma {:induction false} RunKeeps(env: Env, s: State, steps: seq<Step>)
    requires CodesOk(env, s)
    ensures CodesOk(env, Run(env, s, steps))
    decreases |steps|
  {
    hide Next, CodesOk;
    if steps != [] {
      StepKeeps(env, s, steps[0]);
      RunKeeps(env, Next(env, s, steps[0]), steps[1..]);
    }
  }

  // ----------------------------------------------------------------- results

  /** Every code that was handed over is the code of the step its issuance row
      records for its execution. */
  ghost predicate CodesMatchIssuances(env: Env, s: State) {
    forall e <- s.history.codes ::
      && Store.IssuedTo(s.db, (s.history.codes[e].credential, s.history.codes[e].step), e)
      && CodeOk(env, s.db.executions, s.history.consumed, e, s.history.codes[e])
  }

  /** No two codes of one credential are for the same step. */
  ghost predicate StepsNotShared(s: State) {
    forall e <- s.history.codes, f <- s.history.codes ::
      e != f && s.history.codes[e].credential == s.history.codes[f].credential
      ==> s.history.codes[e].step != s.history.codes[f].step
  }

  /** From an empty store, in every interleaving and across restarts: the code
      that is handed over for an execution is the code of exactly the time step
      claimed in its issuance row, and that step contains the instant the consume
      was checked at; two codes of one credential never share a step; and where a
      step was claimed, what is released is a code. */
  lemma EveryCodeIsForItsClaim(env: Env, signer: Ledger.Signer, policyHash: Bytes, steps: seq<Step>)
    ensures var after := Run(env, Initial(signer, policyHash), steps);
            && CodesMatchIssuances(env, after) && StepsNotShared(after)
            && ReleasesCoded(after.db.executions, after.history.released, after.history.codes)
  {
    hide Run, Audit.Genesis, CodeOk, Store.UsesBounded, Store.ExecutionsSound;
    RunKeeps(env, Initial(signer, policyHash), steps);
    BrokerDurable.EveryRunIsSound(env, signer, policyHash, steps);
    var after := Run(env, Initial(signer, policyHash), steps);
    forall e <- after.history.codes
      ensures Store.IssuedTo(after.db, (after.history.codes[e].credential, after.history.codes[e].step), e)
    {
      CodeIsClaimed(env, after, e);
      var step := (after.history.codes[e].credential, after.history.codes[e].step);
      assert Store.IssuedTo(after.db, step, e) <==> Store.ClaimedBy(after.db, step, e);
    }
  }

  lemma CodeIsClaimed(env: Env, s: State, e: Id)
    requires CodesOk(env, s) && e in s.history.codes
    ensures Store.ClaimedBy(s.db, (s.history.codes[e].credential, s.history.codes[e].step), e)
    ensures CodeOk(env, s.db.executions, s.history.consumed, e, s.history.codes[e])
  {
    assert CodeOk(env, s.db.executions, s.history.consumed, e, s.history.codes[e]);
  }
}
