/** One release per execution, hence per capability, hence per request: the
    right to release passes from the thread that committed the consume row
    until the secret is handed over or the right is lost. */
module BrokerReleases {
  import opened ByteStrings
  import opened Wrappers
  import opened Domain
  import opened Broker
  import opened BrokerFrame
  import Audit
  import BrokerAuthority
  import BrokerDurable
  import Ledger
  import Store

  /** The execution a thread may still release a secret for. */
  function RunOf(p: Point): Option<Id> {
    match p
    case RowConsumed(execution, _) => Some(execution)
    case EntryConsumed(execution, _) => Some(execution)
    case Releasing(execution, _) => Some(execution)
    case _ => None
  }

  predicate RunHeld(t: nat, p: Point, at: map<Id, Place>) {
    RunOf(p).Some? ==> HeldAt(at, RunOf(p).value, WithThread(t))
  }

  ghost predicate RunsHeld(threads: map<nat, Point>, at: map<Id, Place>) {
    forall t <- threads :: RunHeld(t, threads[t], at)
  }

  ghost predicate ReleasedHeld(released: seq<Id>, at: map<Id, Place>) {
    forall i :: 0 <= i < |released| ==> HeldAt(at, released[i], Handed(i))
  }

  ghost predicate ReleasesOk(s: State) {
    && s.history.releaseAt.Keys <= s.db.executions.Keys
    && RunsHeld(s.threads, s.history.releaseAt)
    && ReleasedHeld(s.history.released, s.history.releaseAt)
  }

  /** The new point of thread `t` may release only what the old one could. */
  predicate NoRunGained(s: State, t: nat, q: Point) {
    RunOf(q).Some? ==> t in s.threads && RunOf(s.threads[t]) == RunOf(q)
  }

  ghost predicate Quiet(s: State, s': State, t: nat) {
    && s'.history.releaseAt == s.history.releaseAt && s'.history.released == s.history.released
    && RunsAlike(s.db.executions, s'.db.executions)
    && (s'.threads == s.threads || s'.threads == s.threads - {t}
        || (t in s'.threads && s'.threads == s.threads[t := s'.threads[t]] && NoRunGained(s, t, s'.threads[t])))
  }

  lemma QuietKeeps(s: State, s': State, t: nat)
    requires ReleasesOk(s) && Quiet(s, s', t)
    ensures ReleasesOk(s')
  {
    hide RunOf;
    forall u <- s'.threads
      ensures RunHeld(u, s'.threads[u], s.history.releaseAt)
    {
      assert u in s.threads ==> RunHeld(u, s.threads[u], s.history.releaseAt);
    }
  }

  lemma ConsumeRowKeeps(env: Env, s: State, t: nat, execution: Id, content: Ledger.EventContent, stored: bool)
    requires ReleasesOk(s)
    ensures ReleasesOk(ConsumeRow(env, s, t, execution, content, stored))
  {
    hide Transact, ReleasesOk, TotpClaim;
    if t in s.threads && s.threads[t].Verified? {
      var use := s.threads[t].use;
      var id := use.capability.terms.id;
      var s' := ConsumeRow(env, s, t, execution, content, stored);
      if Transact(env, s, Store.ConsumeWithExecution(s.db, id, execution, TotpClaim(use)), content, stored).0 {
        Started(s, s', t, execution, RowConsumed(execution, use));
      } else {
        Stopped(s, s', t);
      }
    }
  }

  /** The right to release `e` moves to `place` while thread `t` goes to `q`. */
  lemma RunsMove(threads: map<nat, Point>, at: map<Id, Place>, t: nat, q: Point, e: Id, place: Place)
    requires RunsHeld(threads, at)
    requires e in at && at[e].WithThread? ==> at[e].t == t
    requires RunHeld(t, q, at[e := place])
    ensures RunsHeld(threads[t := q], at[e := place])
  {
    forall u: nat | u == t || u in threads
      ensures RunHeld(u, threads[t := q][u], at[e := place])
    {
      if u != t {
        assert RunHeld(u, threads[u], at);
      }
    }
  }

  lemma Started(s: State, s': State, t: nat, e: Id, q: Point)
    requires ReleasesOk(s)
    requires e !in s.db.executions && s'.db.executions.Keys == s.db.executions.Keys + {e}
    requires RunOf(q) == Some(e) && s'.threads == s.threads[t := q]
    requires s'.history.released == s.history.released
    requires s'.history.releaseAt == s.history.releaseAt[e := WithThread(t)]
    ensures ReleasesOk(s')
  {
    RunsMove(s.threads, s.history.releaseAt, t, q, e, WithThread(t));
  }

  lemma Stopped(s: State, s': State, t: nat)
    requires ReleasesOk(s)
    requires s'.threads == s.threads - {t} && s'.history == s.history && s'.db == s.db
    ensures ReleasesOk(s')
  {
  }

  lemma ReleaseKeeps(env: Env, s: State, t: nat, secret: Option<Bytes>, content: Ledger.EventContent, stored: bool)
    requires ReleasesOk(s)
    ensures ReleasesOk(Release(env, s, t, secret, content, stored))
  {
    hide Recorded, ReleasesOk, FieldsReady, WithCode;
    if t in s.threads && s.threads[t].Releasing? {
      var p := s.threads[t];
      var s' := Release(env, s, t, secret, content, stored);
      if Recorded(env, s, content, stored && FieldsReady(env, p.use, secret)).0 {
        HandedOver(s, s', t, p.execution);
      } else {
        Stopped(s, s', t);
      }
    }
  }

  lemma HandedOver(s: State, s': State, t: nat, e: Id)
    requires ReleasesOk(s)
    requires t in s.threads && RunOf(s.threads[t]) == Some(e)
    requires s'.threads == s.threads - {t} && s'.db == s.db
    requires s'.history.released == s.history.released + [e]
    requires s'.history.releaseAt == s.history.releaseAt[e := Handed(|s.history.released|)]
    ensures ReleasesOk(s')
  {
    assert RunHeld(t, s.threads[t], s.history.releaseAt);
    forall u <- s'.threads
      ensures RunHeld(u, s'.threads[u], s'.history.releaseAt)
    {
      assert RunHeld(u, s.threads[u], s.history.releaseAt);
    }
  }

  lemma RestartKeeps(s: State, signer: Ledger.Signer, policyHash: Bytes, hashRead: bool)
    requires ReleasesOk(s)
    ensures ReleasesOk(Restart(s, signer, policyHash, hashRead))
  {
  }

  // --------------------------------------------------------------- all steps

  /** The steps that write none of the parts this invariant speaks of. */
  predicate Idle(step: Step) {
    match step
    case Consume(_, DoConsumeRow(_, _, _)) => false
    case Consume(_, DoRelease(_, _, _)) => false
    case World(DoRestart(_, _, _)) => false
    case _ => true
  }

  lemma IdleWrites(step: Step)
    requires Idle(step)
    ensures !IsRestart(step) && Written(step) !! {ReleasePlaces, Released, RunSet}
  {
  }

  lemma RunCarried(s: State, step: Step, t: nat, q: Point)
    requires Idle(step) && Leads(s, step, Was(s, t), q)
    ensures NoRunGained(s, t, q)
  {
  }

  lemma IdleKeeps(env: Env, s: State, step: Step)
    requires ReleasesOk(s) && Idle(step)
    ensures ReleasesOk(Next(env, s, step))
  {
    hide Next, Leads, NoRunGained, ReleasesOk, Idle, Written;
    var s' := Next(env, s, step);
    IdleWrites(step);
    StepFrame(env, s, step);
    StepMoves(env, s, step);
    match Actor(step)
    case None => QuietKeeps(s, s', 0);
    case Some(t) =>
      if s'.threads != s.threads && s'.threads != s.threads - {t} {
        RunCarried(s, step, t, s'.threads[t]);
      }
      QuietKeeps(s, s', t);
  }

  lemma StepKeeps(env: Env, s: State, step: Step)
    requires ReleasesOk(s)
    ensures ReleasesOk(Next(env, s, step))
  {
    hide ReleasesOk, ConsumeRow, Release, Restart;
    match step
    case Consume(t, DoConsumeRow(execution, content, stored)) =>
      ConsumeRowKeeps(env, s, t, execution, content, stored);
    case Consume(t, DoRelease(secret, content, stored)) => ReleaseKeeps(env, s, t, secret, content, stored);
    case World(DoRestart(signer, policyHash, hashRead)) => RestartKeeps(s, signer, policyHash, hashRead);
    case _ => IdleKeeps(env, s, step);
  }

  lemma {:induction false} RunKeeps(env: Env, s: State, steps: seq<Step>)
    requires ReleasesOk(s)
    ensures ReleasesOk(Run(env, s, steps))
    decreases |steps|
  {
    hide Next, ReleasesOk;
    if steps != [] {
      StepKeeps(env, s, steps[0]);
      RunKeeps(env, Next(env, s, steps[0]), steps[1..]);
    }
  }

  /** Two executions are for different capabilities, and if one broker process
      minted both, for different requests. */
  predicate Distinct(db: Store.Tables, e: Id, f: Id) {
    && e in db.executions && f in db.executions
    && db.executions[e].capability in db.capabilities && db.executions[f].capability in db.capabilities
    && var c, d := db.executions[e].capability, db.executions[f].capability;
       c != d && (db.capabilities[c].boot == db.capabilities[d].boot
                  ==> db.capabilities[c].request != db.capabilities[d].request)
  }

  ghost predicate AllDistinct(db: Store.Tables) {
    forall e <- db.executions, f <- db.executions :: e != f ==> Distinct(db, e, f)
  }

  ghost predicate ReleasedOnce(s: State) {
    forall i, j :: 0 <= i < j < |s.history.released| ==> Distinct(s.db, s.history.released[i], s.history.released[j])
  }

  /** From an empty store, in every interleaving and across restarts: any two
      execution rows are for different capabilities, and within the lifetime of
      one broker process for different requests. */
  lemma OneExecutionPerRequest(env: Env, signer: Ledger.Signer, policyHash: Bytes, steps: seq<Step>)
    ensures AllDistinct(Run(env, Initial(signer, policyHash), steps).db)
  {
    hide Run, Audit.Genesis, Store.UsesBounded, Store.TotpSound;
    BrokerDurable.EveryRunIsSound(env, signer, policyHash, steps);
    BrokerAuthority.OneApprovalOneCapability(env, signer, policyHash, steps);
  }

  /** And no execution releases a secret twice, so no capability ever does, and
      no request does in the lifetime of one broker process. */
  lemma OneReleasePerRequest(env: Env, signer: Ledger.Signer, policyHash: Bytes, steps: seq<Step>)
    ensures ReleasedOnce(Run(env, Initial(signer, policyHash), steps))
  {
    hide Run, Audit.Genesis, Distinct;
    RunKeeps(env, Initial(signer, policyHash), steps);
    var after := Run(env, Initial(signer, policyHash), steps);
    forall i | 0 <= i < |after.history.released|
      ensures HeldAt(after.history.releaseAt, after.history.released[i], Handed(i))
    {
    }
    OneExecutionPerRequest(env, signer, policyHash, steps);
  }
}
