/** Handlers run one at a time. Then memory mirrors the store whenever none of
    them is in flight: what a step on the list of `BrokerMirror` breaks, the
    second half of the same handler puts right. */
module BrokerOrder {
  import opened ByteStrings
  import opened Wrappers
  import opened Domain
  import opened Broker
  import opened BrokerFrame
  import opened BrokerMirror
  import Audit
  import Ledger
  import Store

  /** The thread has written the row of this entry and is about to write it. */
  predicate Pending(p: Point, id: Id, entry: Capability) {
    match p
    case RowConsumed(_, use) => id == use.capability.terms.id
    case RowsRevoked(hash) => entry.terms.subject.policyHash != hash
    case PolicyReplaced(hash) => entry.terms.subject.policyHash != hash
    case RowRevoked(revoked) => id == revoked
    case OAuthSpent(oauth, _) => id == oauth
    case _ => false
  }

  /** Points between the durable half of a write and its half in memory. */
  predicate HalfWritten(p: Point) {
    p.RowConsumed? || p.RowsRevoked? || p.PolicyReplaced? || p.RowRevoked? || p.OAuthSpent?
  }

  ghost predicate Excused(threads: map<nat, Point>, id: Id, entry: Capability) {
    exists t :: t in threads && Pending(threads[t], id, entry)
  }

  ghost predicate EntryOk(id: Id, entry: Capability, rows: map<Id, Store.CapabilityRow>, threads: map<nat, Point>) {
    && entry.terms.maxUses == SINGLE_USE
    && (entry.IsLive() ==> Mirrored(rows, id, entry) || Excused(threads, id, entry))
  }

  ghost predicate EntriesOk(
    entries: map<Id, Capability>, rows: map<Id, Store.CapabilityRow>, threads: map<nat, Point>)
  {
    forall id <- entries :: EntryOk(id, entries[id], rows, threads)
  }

  /** What a thread is about to put into memory. */
  predicate CarriedOk(p: Point, rows: map<Id, Store.CapabilityRow>) {
    && (p.RowMinted? ==>
          Mirrored(rows, p.capability.terms.id, p.capability) && p.capability.terms.maxUses == SINGLE_USE)
    && (p.Verified? || p.RowConsumed? ==>
          p.use.capability.state == Consumed && p.use.capability.terms.maxUses == SINGLE_USE)
  }

  ghost predicate AllCarriedOk(threads: map<nat, Point>, rows: map<Id, Store.CapabilityRow>) {
    forall t <- threads :: CarriedOk(threads[t], rows)
  }

  /** At most one handler is in flight. */
  ghost predicate Solo(threads: map<nat, Point>) {
    forall t <- threads, u <- threads :: t == u
  }

  ghost predicate OrderOk(s: State) {
    && Solo(s.threads)
    && EntriesOk(s.capabilities, s.db.capabilities, s.threads)
    && AllCarriedOk(s.threads, s.db.capabilities)
  }

  /** The handler in thread `t` may move: it is in flight, or nothing is. */
  predicate Turn(s: State, t: nat) {
    t in s.threads || s.threads == map[]
  }

  /** Neither rows nor entries change, and no half-written thread moves. */
  ghost predicate Quiet(s: State, s': State, t: nat) {
    && s'.capabilities == s.capabilities && s'.db.capabilities == s.db.capabilities
    && (s'.threads == s.threads
        || ((t in s.threads ==> !HalfWritten(s.threads[t]))
            && (s'.threads == s.threads - {t}
                || (t in s'.threads && s'.threads == s.threads[t := s'.threads[t]]
                    && CarriedOk(s'.threads[t], s.db.capabilities)))))
  }

  lemma QuietKeeps(s: State, s': State, t: nat)
    requires OrderOk(s) && Turn(s, t) && Quiet(s, s', t)
    ensures OrderOk(s')
  {
    hide CarriedOk, Mirrored;
    forall id <- s'.capabilities
      ensures EntryOk(id, s'.capabilities[id], s'.db.capabilities, s'.threads)
    {
      assert EntryOk(id, s.capabilities[id], s.db.capabilities, s.threads);
      if Excused(s.threads, id, s.capabilities[id]) {
        var u :| u in s.threads && Pending(s.threads[u], id, s.capabilities[id]);
        assert HalfWritten(s.threads[u]);
        assert u in s'.threads && s'.threads[u] == s.threads[u];
      }
    }
  }

  lemma CarriedAlong(s: State, step: Step, t: nat, q: Point)
    requires EntriesOk(s.capabilities, s.db.capabilities, s.threads) && AllCarriedOk(s.threads, s.db.capabilities)
    requires Idle(step) && Leads(s, step, Was(s, t), q)
    ensures CarriedOk(q, s.db.capabilities)
  {
    hide Mirrored;
    if q.Verified? {
      var id := s.threads[t].presented.jti;
      assert EntryOk(id, s.capabilities[id], s.db.capabilities, s.threads);
    }
  }

  // ------------------------------------------------------------ writing steps

  lemma OldEntry(s: State, t: nat, id: Id)
    requires OrderOk(s) && Turn(s, t) && id in s.capabilities
    ensures s.capabilities[id].terms.maxUses == SINGLE_USE
    ensures s.capabilities[id].IsLive() ==>
              || Mirrored(s.db.capabilities, id, s.capabilities[id])
              || (t in s.threads && Pending(s.threads[t], id, s.capabilities[id]))
  {
  }

  /** Thread `t` goes to `q`, and every entry is accounted for afterwards. */
  lemma Arrives(s: State, s': State, t: nat, q: Point)
    requires OrderOk(s) && Turn(s, t) && s'.threads == s.threads[t := q]
    requires CarriedOk(q, s'.db.capabilities)
    requires forall id <- s'.capabilities ::
               && s'.capabilities[id].terms.maxUses == SINGLE_USE
               && (s'.capabilities[id].IsLive() ==>
                     Mirrored(s'.db.capabilities, id, s'.capabilities[id]) || Pending(q, id, s'.capabilities[id]))
    ensures OrderOk(s')
  {
    forall id <- s'.capabilities
      ensures EntryOk(id, s'.capabilities[id], s'.db.capabilities, s'.threads)
    {
      assert t in s'.threads && s'.threads[t] == q;
    }
  }

  lemma MintRowKeeps(env: Env, s: State, t: nat, id: Id, now: int, content: Ledger.EventContent, stored: bool)
    requires OrderOk(s) && Turn(s, t)
    ensures OrderOk(MintRow(env, s, t, id, now, content, stored))
  {
    hide Transact, NewCapability, NewRow, OrderOk;
    var s' := MintRow(env, s, t, id, now, content, stored);
    if t in s.threads && s.threads[t].Minting? {
      var a := s.threads[t].authorization;
      var row := NewRow(a, s.boot);
      if Transact(env, s, Store.InsertCapability(s.db, id, row), content, stored).0 {
        NewRowMirrors(a, s.boot, id, now);
        RowAdded(s, s', t, id, row, RowMinted(NewCapability(a, id, now), a.generator));
      } else if s.threads[t].authority.ByApproval? {
        QuietKeeps(s, s', t);
      } else {
        QuietKeeps(s, s', t);
      }
    }
  }

  lemma NewRowMirrors(a: Authorization, boot: nat, id: Id, now: int)
    ensures var c := NewCapability(a, id, now);
            c.terms.id == id && c.terms.maxUses == SINGLE_USE && Mirrored(map[id := NewRow(a, boot)], id, c)
  {
  }

  lemma RowAdded(s: State, s': State, t: nat, id: Id, row: Store.CapabilityRow, q: Point)
    requires OrderOk(s) && t in s.threads && s.threads[t].Minting?
    requires id !in s.db.capabilities && s'.db.capabilities == s.db.capabilities[id := row]
    requires s'.capabilities == s.capabilities && s'.threads == s.threads[t := q] && q.RowMinted?
    requires q.capability.terms.id == id && q.capability.terms.maxUses == SINGLE_USE
    requires Mirrored(map[id := row], id, q.capability)
    ensures OrderOk(s')
  {
    forall other <- s.capabilities
      ensures s.capabilities[other].terms.maxUses == SINGLE_USE
      ensures s.capabilities[other].IsLive() ==> Mirrored(s'.db.capabilities, other, s.capabilities[other])
    {
      OldEntry(s, t, other);
    }
    Arrives(s, s', t, q);
  }

  lemma PublishCapabilityKeeps(s: State, t: nat)
    requires OrderOk(s) && Turn(s, t)
    ensures OrderOk(PublishCapability(s, t))
  {
  }

  /** Row `id` is spent or revoked; every other row stays. */
  ghost predicate RowEnds(rows: map<Id, Store.CapabilityRow>, rows': map<Id, Store.CapabilityRow>, id: Id) {
    forall other <- rows :: other != id ==> other in rows' && rows'[other] == rows[other]
  }

  /** A durable change of one row, with the write to memory still to come. */
  lemma RowEnded(s: State, s': State, t: nat, id: Id, q: Point)
    requires OrderOk(s) && Turn(s, t) && (t in s.threads ==> !HalfWritten(s.threads[t]))
    requires RowEnds(s.db.capabilities, s'.db.capabilities, id)
    requires s'.capabilities == s.capabilities && s'.threads == s.threads[t := q]
    requires CarriedOk(q, s'.db.capabilities) && forall entry :: Pending(q, id, entry)
    ensures OrderOk(s')
  {
    forall other <- s.capabilities
      ensures s.capabilities[other].terms.maxUses == SINGLE_USE
      ensures s.capabilities[other].IsLive() ==>
                Mirrored(s'.db.capabilities, other, s.capabilities[other]) || Pending(q, other, s.capabilities[other])
    {
      OldEntry(s, t, other);
    }
    Arrives(s, s', t, q);
  }

  lemma ConsumeEnds(db: Store.Tables, id: Id, execution: Id, step: Option<Store.TotpStep>)
    ensures var next := Store.ConsumeWithExecution(db, id, execution, step);
            next.Some? ==> RowEnds(db.capabilities, next.value.capabilities, id)
  {
  }

  lemma ConsumeRowKeeps(env: Env, s: State, t: nat, execution: Id, content: Ledger.EventContent, stored: bool)
    requires OrderOk(s) && Turn(s, t)
    ensures OrderOk(ConsumeRow(env, s, t, execution, content, stored))
  {
    hide Transact, TotpClaim, OrderOk, RowEnds, Store.ConsumeWithExecution;
    var s' := ConsumeRow(env, s, t, execution, content, stored);
    if t in s.threads && s.threads[t].Verified? {
      var use := s.threads[t].use;
      var id, step := use.capability.terms.id, TotpClaim(use);
      CarriedIs(s, t);
      ConsumeEnds(s.db, id, execution, step);
      if Transact(env, s, Store.ConsumeWithExecution(s.db, id, execution, step), content, stored).0 {
        RowEnded(s, s', t, id, RowConsumed(execution, use));
      } else {
        QuietKeeps(s, s', t);
      }
    }
  }

  lemma CarriedIs(s: State, t: nat)
    requires OrderOk(s) && t in s.threads
    ensures CarriedOk(s.threads[t], s.db.capabilities)
  {
  }

  lemma RevokeRowKeeps(env: Env, s: State, t: nat, id: Id, content: Ledger.EventContent, stored: bool)
    requires OrderOk(s) && Turn(s, t)
    ensures OrderOk(RevokeRow(env, s, t, id, content, stored))
  {
    hide Transact, OrderOk;
    var s' := RevokeRow(env, s, t, id, content, stored);
    if t !in s.threads {
      if Transact(env, s, Store.RevokeCapability(s.db, id), content, stored).0 {
        RowEnded(s, s', t, id, RowRevoked(id));
      } else {
        QuietKeeps(s, s', t);
      }
    }
  }

  lemma SpendOAuthRowKeeps(s: State, t: nat, stored: bool)
    requires OrderOk(s) && Turn(s, t)
    ensures OrderOk(SpendOAuthRow(s, t, stored))
  {
    hide OrderOk;
    var s' := SpendOAuthRow(s, t, stored);
    if t in s.threads && s.threads[t].OAuthTaken? {
      var p := s.threads[t];
      if s'.threads[t].OAuthSpent? {
        RowEnded(s, s', t, p.oauth, OAuthSpent(p.oauth, p.request));
      } else {
        QuietKeeps(s, s', t);
      }
    }
  }

  /** Entries are only closed, and the pending ones are. */
  ghost predicate Closes(p: Option<Point>, entries: map<Id, Capability>, entries': map<Id, Capability>) {
    forall id <- entries' ::
      && id in entries && entries'[id].terms == entries[id].terms
      && (entries'[id].IsLive() ==> entries'[id] == entries[id] && (p.Some? ==> !Pending(p.value, id, entries[id])))
  }

  lemma Entered(s: State, s': State, t: nat, c: Capability)
    requires OrderOk(s) && t in s.threads && s.threads[t].RowConsumed? && s.threads[t].use.capability == c
    requires !c.IsLive() && c.terms.maxUses == SINGLE_USE
    requires s'.db == s.db && s'.threads == s.threads[t := EntryConsumed(s.threads[t].execution, s.threads[t].use)]
    requires s'.capabilities
             == (if c.terms.id in s.capabilities then s.capabilities[c.terms.id := c] else s.capabilities)
    ensures OrderOk(s')
  {
    forall id <- s'.capabilities
      ensures s'.capabilities[id].terms.maxUses == SINGLE_USE
      ensures s'.capabilities[id].IsLive() ==> Mirrored(s.db.capabilities, id, s'.capabilities[id])
    {
      OldEntry(s, t, id);
    }
    Arrives(s, s', t, EntryConsumed(s.threads[t].execution, s.threads[t].use));
  }

  lemma WriteBackKeeps(s: State, t: nat)
    requires OrderOk(s) && Turn(s, t)
    ensures OrderOk(WriteBack(s, t))
  {
    hide OrderOk;
    if t in s.threads && s.threads[t].RowConsumed? {
      CarriedIs(s, t);
      Entered(s, WriteBack(s, t), t, s.threads[t].use.capability);
    }
  }

  lemma CancelKeeps(s: State, agent: Id, request: Id)
    requires OrderOk(s) && s.threads == map[]
    ensures OrderOk(Cancel(s, agent, request))
  {
  }

  lemma DisableAgentKeeps(s: State, agent: Id)
    requires OrderOk(s) && s.threads == map[]
    ensures OrderOk(DisableAgent(s, agent))
  {
  }

  lemma SpentCloses(entries: map<Id, Capability>, id: Id, request: Id)
    ensures Closes(Some(OAuthSpent(id, request)), entries, WithSpent(entries, id))
  {
  }

  lemma Ends(s: State, s': State, t: nat)
    requires OrderOk(s) && Turn(s, t) && s'.threads == s.threads - {t}
    requires forall id <- s'.capabilities ::
               && s'.capabilities[id].terms.maxUses == SINGLE_USE
               && (s'.capabilities[id].IsLive() ==> Mirrored(s'.db.capabilities, id, s'.capabilities[id]))
    ensures OrderOk(s')
  {
  }

  lemma EntriesClosed(s: State, s': State, t: nat)
    requires OrderOk(s) && Turn(s, t) && Closes(Was(s, t), s.capabilities, s'.capabilities)
    requires s'.db == s.db
    requires s'.threads == s.threads - {t}
             || (t in s'.threads && s'.threads == s.threads[t := s'.threads[t]] && s'.threads[t].Reporting?)
    ensures OrderOk(s')
  {
    hide OrderOk;
    forall id <- s'.capabilities
      ensures s'.capabilities[id].terms.maxUses == SINGLE_USE
      ensures s'.capabilities[id].IsLive() ==> Mirrored(s.db.capabilities, id, s'.capabilities[id])
    {
      OldEntry(s, t, id);
    }
    if s'.threads == s.threads - {t} {
      Ends(s, s', t);
    } else {
      Arrives(s, s', t, s'.threads[t]);
    }
  }

  lemma SessionCloses(entries: map<Id, Capability>, stale: set<Id>)
    ensures Closes(Some(SessionsSwept(stale)), entries, RevokedAmong(entries, OfSessions(entries, stale)))
  {
  }

  lemma RevokeSessionEntriesKeeps(s: State, t: nat)
    requires OrderOk(s) && Turn(s, t)
    ensures OrderOk(RevokeSessionEntries(s, t))
  {
    hide OrderOk, Closes, RevokedAmong, OfSessions;
    if t in s.threads && s.threads[t].SessionsSwept? {
      SessionCloses(s.capabilities, s.threads[t].stale);
      EntriesClosed(s, RevokeSessionEntries(s, t), t);
    }
  }

  lemma PolicyCloses(entries: map<Id, Capability>, hash: Bytes)
    ensures Closes(Some(PolicyReplaced(hash)), entries, RevokedAmong(entries, OfOtherPolicies(entries, hash)))
  {
  }

  lemma RevokePolicyEntriesKeeps(s: State, t: nat)
    requires OrderOk(s) && Turn(s, t)
    ensures OrderOk(RevokePolicyEntries(s, t))
  {
    hide OrderOk, Closes, RevokedAmong, OfOtherPolicies;
    if t in s.threads && s.threads[t].PolicyReplaced? {
      PolicyCloses(s.capabilities, s.threads[t].hash);
      EntriesClosed(s, RevokePolicyEntries(s, t), t);
    }
  }

  lemma RevokedCloses(entries: map<Id, Capability>, id: Id)
    ensures Closes(Some(RowRevoked(id)), entries,
                   if id in entries then entries[id := entries[id].(state := Revoked)] else entries)
  {
  }

  lemma RevokeEntryKeeps(s: State, t: nat)
    requires OrderOk(s) && Turn(s, t)
    ensures OrderOk(RevokeEntry(s, t))
  {
    hide OrderOk, Closes;
    if t in s.threads && s.threads[t].RowRevoked? {
      RevokedCloses(s.capabilities, s.threads[t].revoked);
      EntriesClosed(s, RevokeEntry(s, t), t);
    }
  }

  lemma SpendOAuthEntryKeeps(s: State, t: nat, exchanged: bool)
    requires OrderOk(s) && Turn(s, t)
    ensures OrderOk(SpendOAuthEntry(s, t, exchanged))
  {
    hide OrderOk, Closes, WithSpent;
    if t in s.threads && s.threads[t].OAuthSpent? {
      var p := s.threads[t];
      SpentCloses(s.capabilities, p.oauth, p.request);
      EntriesClosed(s, SpendOAuthEntry(s, t, exchanged), t);
    }
  }

  lemma ReloadRowsKeeps(env: Env, s: State, t: nat, hash: Bytes, content: Ledger.EventContent, stored: bool)
    requires OrderOk(s) && Turn(s, t)
    ensures OrderOk(ReloadRows(env, s, t, hash, content, stored))
  {
    hide Transact, OrderOk;
    var s' := ReloadRows(env, s, t, hash, content, stored);
    if t !in s.threads {
      if Transact(env, s, Some(Store.RevokeOtherPolicies(s.db, hash)), content, stored).0 {
        OthersRevoked(s, s', t, hash);
      } else {
        QuietKeeps(s, s', t);
      }
    }
  }

  lemma OthersRevoked(s: State, s': State, t: nat, hash: Bytes)
    requires OrderOk(s) && s.threads == map[]
    requires s'.db == Store.RevokeOtherPolicies(s.db, hash)
    requires s'.capabilities == s.capabilities && s'.threads == s.threads[t := RowsRevoked(hash)]
    ensures OrderOk(s')
  {
    forall id <- s.capabilities
      ensures s.capabilities[id].terms.maxUses == SINGLE_USE
      ensures s.capabilities[id].IsLive() ==>
                || Mirrored(s'.db.capabilities, id, s.capabilities[id])
                || Pending(RowsRevoked(hash), id, s.capabilities[id])
    {
      OldEntry(s, t, id);
    }
    Arrives(s, s', t, RowsRevoked(hash));
  }

  lemma ReplacePolicyKeeps(s: State, t: nat)
    requires OrderOk(s) && Turn(s, t)
    ensures OrderOk(ReplacePolicy(s, t))
  {
    hide OrderOk;
    if t in s.threads && s.threads[t].RowsRevoked? {
      Replaced(s, ReplacePolicy(s, t), t, s.threads[t].hash);
    }
  }

  lemma Replaced(s: State, s': State, t: nat, hash: Bytes)
    requires OrderOk(s) && t in s.threads && s.threads[t] == RowsRevoked(hash)
    requires s'.db == s.db && s'.capabilities == s.capabilities && s'.threads == s.threads[t := PolicyReplaced(hash)]
    ensures OrderOk(s')
  {
    forall id <- s.capabilities
      ensures s.capabilities[id].terms.maxUses == SINGLE_USE
      ensures s.capabilities[id].IsLive() ==>
                || Mirrored(s.db.capabilities, id, s.capabilities[id])
                || Pending(PolicyReplaced(hash), id, s.capabilities[id])
    {
      OldEntry(s, t, id);
    }
    Arrives(s, s', t, PolicyReplaced(hash));
  }

  lemma RestartKeeps(s: State, signer: Ledger.Signer, policyHash: Bytes, hashRead: bool)
    ensures OrderOk(Restart(s, signer, policyHash, hashRead))
  {
  }

  // --------------------------------------------------------------- all steps

  /** The steps that write neither rows nor entries, nor end a reload. */
  predicate Idle(step: Step) {
    Still(step) && !(step.Withdraw? && step.withdraw.DoReplacePolicy?)
  }

  /** Between the two halves of a write, only the second half runs. */
  lemma AskWaits(env: Env, s: State, t: nat, step: AskStep)
    requires t in s.threads && HalfWritten(s.threads[t]) && Idle(Ask(t, step))
    ensures AskNext(env, s, t, step).threads == s.threads
  {
    match step
    case DoSubmit(_, _, _) =>
    case DoBindAgent =>
    case DoMarkRequested(_) =>
    case DoRecordRequested(_, _) =>
    case DoCheckSession(_) =>
    case DoMeasure(_, _) =>
    case DoEvaluate(_, _) =>
    case DoRoute(_, _) =>
    case DoTouchGrant(_) =>
    case DoRecordGrantUse(_, _) =>
    case DoStoreApproval(_, _, _) =>
    case DoPublishApproval =>
    case DoGiveUp =>
    case DoReport =>
  }

  lemma DecideWaits(env: Env, s: State, t: nat, step: DecideStep)
    requires t in s.threads && HalfWritten(s.threads[t]) && Idle(Decide(t, step))
    ensures DecideNext(env, s, t, step).threads == s.threads
  {
    match step
    case DoBeginDecide(_) =>
    case DoJudge(_, _, _, _) =>
    case DoStoreDecision(_, _) =>
    case DoDropApproval =>
  }

  lemma IssueWaits(env: Env, s: State, t: nat, step: IssueStep)
    requires t in s.threads && HalfWritten(s.threads[t]) && Idle(Issue(t, step))
    ensures IssueNext(env, s, t, step).threads == s.threads
  {
    match step
    case DoQueueOffer =>
  }

  lemma PollWaits(env: Env, s: State, t: nat, step: PollStep)
    requires t in s.threads && HalfWritten(s.threads[t]) && Idle(Poll(t, step))
    ensures PollNext(env, s, t, step).threads == s.threads
  {
    match step
    case DoBeginNext(_, _) =>
    case DoPopOffer =>
    case DoInspectOffer(_, _) =>
  }

  lemma ConsumeWaits(env: Env, s: State, t: nat, step: ConsumeStep)
    requires t in s.threads && HalfWritten(s.threads[t]) && Idle(Consume(t, step))
    ensures ConsumeNext(env, s, t, step).threads == s.threads
  {
    match step
    case DoBeginConsume(_, _, _, _) =>
    case DoSnapshot =>
    case DoTrackExecution =>
    case DoRelease(_, _, _) =>
  }

  lemma FinishWaits(env: Env, s: State, t: nat, step: FinishStep)
    requires t in s.threads && HalfWritten(s.threads[t]) && Idle(Finish(t, step))
    ensures FinishNext(env, s, t, step).threads == s.threads
  {
    match step
    case DoBeginResult(_, _) =>
    case DoFinishRow(_, _) =>
    case DoWriteExecution =>
  }

  lemma WithdrawWaits(env: Env, s: State, t: nat, step: WithdrawStep)
    requires t in s.threads && HalfWritten(s.threads[t]) && Idle(Withdraw(t, step))
    ensures WithdrawNext(env, s, t, step).threads == s.threads
  {
    match step
    case DoSweepSessions(_) =>
    case DoCloseBrowser(_) =>
    case DoListGrants(_) =>
    case DoRevokeGrants(_, _) =>
  }

  lemma CallbackWaits(env: Env, s: State, t: nat, step: CallbackStep)
    requires t in s.threads && HalfWritten(s.threads[t]) && Idle(Callback(t, step))
    ensures CallbackNext(env, s, t, step).threads == s.threads
  {
    match step
    case DoBeginOAuth(_) =>
    case DoTakeOAuth(_, _) =>
  }

  lemma StepWaits(env: Env, s: State, step: Step, t: nat)
    requires t in s.threads && HalfWritten(s.threads[t]) && Idle(step) && Actor(step) == Some(t)
    ensures Next(env, s, step).threads == s.threads
  {
    hide Idle, HalfWritten, AskNext, DecideNext, IssueNext, PollNext, ConsumeNext, FinishNext, WithdrawNext,
         CallbackNext, WorldNext;
    match step
    case Ask(_, ask) => AskWaits(env, s, t, ask);
    case Decide(_, decide) => DecideWaits(env, s, t, decide);
    case Issue(_, issue) => IssueWaits(env, s, t, issue);
    case Poll(_, poll) => PollWaits(env, s, t, poll);
    case Consume(_, consume) => ConsumeWaits(env, s, t, consume);
    case Finish(_, finish) => FinishWaits(env, s, t, finish);
    case Withdraw(_, withdraw) => WithdrawWaits(env, s, t, withdraw);
    case Callback(_, callback) => CallbackWaits(env, s, t, callback);
  }

  /** A handler starts only when no other is in flight. */
  predicate Orderly(s: State, step: Step) {
    match Actor(step)
    case Some(t) => Turn(s, t)
    case None => step.Withdraw? ==> s.threads == map[]
  }

  lemma IdleKeeps(env: Env, s: State, step: Step)
    requires OrderOk(s) && Orderly(s, step) && Idle(step)
    ensures OrderOk(Next(env, s, step))
  {
    hide Next, Leads, CarriedOk, HalfWritten, Still, Written, EntriesOk, AllCarriedOk, Solo;
    var s' := Next(env, s, step);
    StillWrites(step);
    StepFrame(env, s, step);
    StepMoves(env, s, step);
    match Actor(step)
    case None => Untouched(s, s');
    case Some(t) =>
      if t in s.threads && HalfWritten(s.threads[t]) {
        StepWaits(env, s, step, t);
      } else if s'.threads != s.threads && s'.threads != s.threads - {t} {
        CarriedAlong(s, step, t, s'.threads[t]);
      }
      QuietKeeps(s, s', t);
  }

  lemma Untouched(s: State, s': State)
    requires OrderOk(s)
    requires s'.threads == s.threads && s'.capabilities == s.capabilities
    requires s'.db.capabilities == s.db.capabilities
    ensures OrderOk(s')
  {
    hide EntriesOk, AllCarriedOk, Solo;
  }

  lemma StepKeeps(env: Env, s: State, step: Step)
    requires OrderOk(s) && Orderly(s, step)
    ensures OrderOk(Next(env, s, step))
  {
    hide OrderOk, MintRow, PublishCapability, ConsumeRow, WriteBack, Cancel, RevokeSessionEntries, ReloadRows,
         ReplacePolicy, RevokePolicyEntries, RevokeRow, RevokeEntry, DisableAgent, SpendOAuthRow, SpendOAuthEntry,
         Restart;
    match step
    case Issue(t, DoMintRow(id, now, content, stored)) => MintRowKeeps(env, s, t, id, now, content, stored);
    case Issue(t, DoPublishCapability) => PublishCapabilityKeeps(s, t);
    case Consume(t, DoConsumeRow(execution, content, stored)) =>
      ConsumeRowKeeps(env, s, t, execution, content, stored);
    case Consume(t, DoWriteBack) => WriteBackKeeps(s, t);
    case Withdraw(_, DoCancel(agent, request)) => CancelKeeps(s, agent, request);
    case Withdraw(_, DoDisableAgent(agent)) => DisableAgentKeeps(s, agent);
    case Withdraw(t, DoRevokeSessionEntries) => RevokeSessionEntriesKeeps(s, t);
    case Withdraw(t, DoReloadRows(hash, content, stored)) => ReloadRowsKeeps(env, s, t, hash, content, stored);
    case Withdraw(t, DoReplacePolicy) => ReplacePolicyKeeps(s, t);
    case Withdraw(t, DoRevokePolicyEntries) => RevokePolicyEntriesKeeps(s, t);
    case Withdraw(t, DoRevokeRow(id, content, stored)) => RevokeRowKeeps(env, s, t, id, content, stored);
    case Withdraw(t, DoRevokeEntry) => RevokeEntryKeeps(s, t);
    case Callback(t, DoSpendOAuthRow(stored)) => SpendOAuthRowKeeps(s, t, stored);
    case Callback(t, DoSpendOAuthEntry(exchanged)) => SpendOAuthEntryKeeps(s, t, exchanged);
    case World(DoRestart(signer, policyHash, hashRead)) => RestartKeeps(s, signer, policyHash, hashRead);
    case _ => IdleKeeps(env, s, step);
  }

  ghost predicate OrderlyRun(env: Env, s: State, steps: seq<Step>)
    decreases |steps|
  {
    steps != [] ==> Orderly(s, steps[0]) && OrderlyRun(env, Next(env, s, steps[0]), steps[1..])
  }

  lemma {:induction false} RunKeeps(env: Env, s: State, steps: seq<Step>)
    requires OrderOk(s) && OrderlyRun(env, s, steps)
    ensures OrderOk(Run(env, s, steps))
    decreases |steps|
  {
    hide Next, OrderOk, Orderly;
    if steps != [] {
      StepKeeps(env, s, steps[0]);
      RunKeeps(env, Next(env, s, steps[0]), steps[1..]);
    }
  }

  /** With handlers run one at a time, between handlers every entry that is
      issued or active has a row that is too, with the same use count, allowance
      and policy. */
  lemma MemoryMirrorsStore(env: Env, signer: Ledger.Signer, policyHash: Bytes, steps: seq<Step>, id: Id)
    requires OrderlyRun(env, Initial(signer, policyHash), steps)
    requires Run(env, Initial(signer, policyHash), steps).threads == map[]
    requires id in Run(env, Initial(signer, policyHash), steps).capabilities
    ensures var after := Run(env, Initial(signer, policyHash), steps);
            after.capabilities[id].IsLive() ==> Mirrored(after.db.capabilities, id, after.capabilities[id])
  {
    hide Run, OrderlyRun, Audit.Genesis;
    RunKeeps(env, Initial(signer, policyHash), steps);
    OldEntry(Run(env, Initial(signer, policyHash), steps), 0, id);
  }
}
