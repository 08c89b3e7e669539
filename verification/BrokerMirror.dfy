/** Memory and store. A capability entry that looks usable should have a row that
    is usable in the same way. One step can break that, and the steps that do are
    listed exactly; run one at a time, handlers put it right before they end. */
module BrokerMirror {
  import opened ByteStrings
  import opened Wrappers
  import opened Domain
  import opened Broker
  import opened BrokerFrame
  import Audit
  import BrokerBinding
  import BrokerDurable
  import Ledger
  import Store

  predicate Mirrored(rows: map<Id, Store.CapabilityRow>, id: Id, entry: Capability) {
    && id in rows && rows[id].IsLive()
    && rows[id].usedCount == entry.usedCount && rows[id].maxUses == entry.terms.maxUses
    && rows[id].policyHash == entry.terms.subject.policyHash
  }

  predicate InStep(rows: map<Id, Store.CapabilityRow>, id: Id, entry: Capability) {
    entry.IsLive() ==> Mirrored(rows, id, entry)
  }

  ghost predicate AllInStep(entries: map<Id, Capability>, rows: map<Id, Store.CapabilityRow>) {
    forall id <- entries :: InStep(rows, id, entries[id])
  }

  ghost predicate Mirror(s: State) {
    AllInStep(s.capabilities, s.db.capabilities)
  }

  // -------------------------------------------------- what breaks the mirror

  predicate LiveEntry(s: State, id: Id) {
    id in s.capabilities && s.capabilities[id].IsLive()
  }

  /** The audited transaction of the step goes through. */
  predicate Commits(env: Env, s: State, step: Step) {
    && BrokerDurable.RecordOf(step).Some? && BrokerDurable.Transaction(s, step).Some?
    && var (content, stored) := BrokerDurable.RecordOf(step).value;
       Transact(env, s, Store.Attempt(s.db, BrokerDurable.Transaction(s, step).value), content, stored).0
  }

  /** The row the step ends, if it commits, whose entry is still live. */
  predicate EndsLive(s: State, step: Step) {
    match step
    case Consume(t, DoConsumeRow(_, _, _)) =>
      t in s.threads && s.threads[t].Verified? && LiveEntry(s, s.threads[t].use.capability.terms.id)
    case Withdraw(_, DoRevokeRow(id, _, _)) => LiveEntry(s, id)
    case Withdraw(_, DoReloadRows(hash, _, _)) =>
      exists id <- s.capabilities :: LiveEntry(s, id) && s.capabilities[id].terms.subject.policyHash != hash
    case _ => false
  }

  /** What is published without being in step. */
  predicate PublishesEnded(s: State, step: Step) {
    match step
    case Issue(t, DoPublishCapability) =>
      && t in s.threads && s.threads[t].RowMinted?
      && !InStep(s.db.capabilities, s.threads[t].capability.terms.id, s.threads[t].capability)
    case Consume(t, DoWriteBack) =>
      && t in s.threads && s.threads[t].RowConsumed? && s.threads[t].use.capability.terms.id in s.capabilities
      && !InStep(s.db.capabilities, s.threads[t].use.capability.terms.id, s.threads[t].use.capability)
    case _ => false
  }

  predicate SpendsLive(s: State, step: Step) {
    match step
    case Callback(t, DoSpendOAuthRow(stored)) =>
      && t in s.threads && s.threads[t].OAuthTaken? && stored && Store.Consumable(s.db, s.threads[t].oauth)
      && LiveEntry(s, s.threads[t].oauth)
    case _ => false
  }

  /** The complete list: a capability published, or written back, when its row
      has ended; a consume, a revocation or a reload that commits, or an OAuth
      callback that spends the row, while an entry is live. */
  predicate Breaks(env: Env, s: State, step: Step) {
    PublishesEnded(s, step) || SpendsLive(s, step) || (Commits(env, s, step) && EndsLive(s, step))
  }

  /** The steps that write neither row states nor entries. */
  predicate Still(step: Step) {
    match step
    case Issue(_, DoMintRow(_, _, _, _)) => false
    case Issue(_, DoPublishCapability) => false
    case Consume(_, DoConsumeRow(_, _, _)) => false
    case Consume(_, DoWriteBack) => false
    case Withdraw(_, DoCancel(_, _)) => false
    case Withdraw(_, DoRevokeSessionEntries) => false
    case Withdraw(_, DoReloadRows(_, _, _)) => false
    case Withdraw(_, DoRevokePolicyEntries) => false
    case Withdraw(_, DoRevokeRow(_, _, _)) => false
    case Withdraw(_, DoRevokeEntry) => false
    case Withdraw(_, DoDisableAgent(_)) => false
    case Callback(_, DoSpendOAuthRow(_)) => false
    case Callback(_, DoSpendOAuthEntry(_)) => false
    case World(DoRestart(_, _, _)) => false
    case _ => true
  }

  lemma StillWrites(step: Step)
    requires Still(step)
    ensures !IsRestart(step) && Written(step) !! {RowStates, EntryStates}
  {
  }

  lemma StillMirrors(env: Env, s: State, step: Step)
    requires Still(step)
    ensures Mirror(Next(env, s, step)) <==> Mirror(s)
    ensures !Breaks(env, s, step)
  {
    hide Next, Still, Written, AllInStep;
    StillWrites(step);
    StillBreaksNothing(env, s, step);
    StepFrame(env, s, step);
  }

  lemma StillBreaksNothing(env: Env, s: State, step: Step)
    requires Still(step)
    ensures !Breaks(env, s, step)
  {
    hide Commits, LiveEntry, InStep, Store.Consumable;
  }

  /** Entries only end. */
  ghost predicate EntriesEnd(entries: map<Id, Capability>, entries': map<Id, Capability>) {
    forall id <- entries' :: id in entries && (entries'[id].IsLive() ==> entries'[id] == entries[id])
  }

  lemma EndingMirrors(s: State, s': State)
    requires Mirror(s) && s'.db == s.db && EntriesEnd(s.capabilities, s'.capabilities)
    ensures Mirror(s')
  {
  }

  lemma RevokedEnd(entries: map<Id, Capability>, ids: set<Id>)
    ensures EntriesEnd(entries, RevokedAmong(entries, ids))
  {
  }

  lemma SpentEnd(entries: map<Id, Capability>, id: Id)
    ensures EntriesEnd(entries, WithSpent(entries, id))
  {
  }

  lemma NoneEnd(entries: map<Id, Capability>)
    ensures EntriesEnd(entries, entries)
  {
  }

  lemma CancelMirrors(s: State, agent: Id, request: Id)
    requires Mirror(s)
    ensures Mirror(Cancel(s, agent, request))
  {
    hide Mirror, EntriesEnd, RevokedAmong;
    RevokedEnd(s.capabilities, OfRequest(s.capabilities, request));
    NoneEnd(s.capabilities);
    EndingMirrors(s, Cancel(s, agent, request));
  }

  lemma DisableAgentMirrors(s: State, agent: Id)
    requires Mirror(s)
    ensures Mirror(DisableAgent(s, agent))
  {
    hide Mirror, EntriesEnd, RevokedAmong;
    RevokedEnd(s.capabilities, OfAgent(s.capabilities, agent));
    EndingMirrors(s, DisableAgent(s, agent));
  }

  lemma RevokeSessionEntriesMirrors(s: State, t: nat)
    requires Mirror(s)
    ensures Mirror(RevokeSessionEntries(s, t))
  {
    hide Mirror, EntriesEnd, RevokedAmong;
    NoneEnd(s.capabilities);
    if t in s.threads && s.threads[t].SessionsSwept? {
      RevokedEnd(s.capabilities, OfSessions(s.capabilities, s.threads[t].stale));
    }
    EndingMirrors(s, RevokeSessionEntries(s, t));
  }

  lemma RevokePolicyEntriesMirrors(s: State, t: nat)
    requires Mirror(s)
    ensures Mirror(RevokePolicyEntries(s, t))
  {
    hide Mirror, EntriesEnd, RevokedAmong;
    NoneEnd(s.capabilities);
    if t in s.threads && s.threads[t].PolicyReplaced? {
      RevokedEnd(s.capabilities, OfOtherPolicies(s.capabilities, s.threads[t].hash));
    }
    EndingMirrors(s, RevokePolicyEntries(s, t));
  }

  lemma RevokeEntryMirrors(s: State, t: nat)
    requires Mirror(s)
    ensures Mirror(RevokeEntry(s, t))
  {
  }

  lemma SpendOAuthEntryMirrors(s: State, t: nat, exchanged: bool)
    requires Mirror(s)
    ensures Mirror(SpendOAuthEntry(s, t, exchanged))
  {
    hide Mirror, EntriesEnd, WithSpent;
    NoneEnd(s.capabilities);
    if t in s.threads && s.threads[t].OAuthSpent? {
      SpentEnd(s.capabilities, s.threads[t].oauth);
    }
    EndingMirrors(s, SpendOAuthEntry(s, t, exchanged));
  }

  lemma RestartMirrors(s: State, signer: Ledger.Signer, policyHash: Bytes, hashRead: bool)
    ensures Mirror(Restart(s, signer, policyHash, hashRead))
  {
    hide Ledger.Reopen, Store.Recover;
  }

  lemma MintRowMirrors(
    env: Env, s: State, t: nat, id: Id, now: int, content: Ledger.EventContent, stored: bool)
    requires Mirror(s)
    ensures Mirror(MintRow(env, s, t, id, now, content, stored))
  {
    hide Transact, NewCapability, NewRow;
  }

  lemma EntryPut(s: State, s': State, id: Id, entry: Capability)
    requires Mirror(s) && s'.db == s.db && s'.capabilities == s.capabilities[id := entry]
    ensures Mirror(s') <==> InStep(s.db.capabilities, id, entry)
  {
    hide InStep;
    assert id in s'.capabilities && s'.capabilities[id] == entry;
  }

  lemma PublishMirrors(s: State, t: nat)
    requires Mirror(s)
    ensures Mirror(PublishCapability(s, t)) <==> !PublishesEnded(s, Issue(t, DoPublishCapability))
  {
    hide Mirror, InStep;
    if t in s.threads && s.threads[t].RowMinted? {
      var c := s.threads[t].capability;
      EntryPut(s, PublishCapability(s, t), c.terms.id, c);
    }
  }

  lemma WriteBackMirrors(s: State, t: nat)
    requires Mirror(s)
    ensures Mirror(WriteBack(s, t)) <==> !PublishesEnded(s, Consume(t, DoWriteBack))
  {
    hide Mirror, InStep, Continued;
    if t !in s.threads || !s.threads[t].RowConsumed? {
    } else if s.threads[t].use.capability.terms.id !in s.capabilities {
      WritesNothing(s, t);
      SameMirror(s, WriteBack(s, t));
    } else {
      WritesCopy(s, t);
      EntryPut(s, WriteBack(s, t), s.threads[t].use.capability.terms.id, s.threads[t].use.capability);
    }
  }

  lemma WritesNothing(s: State, t: nat)
    requires t in s.threads && s.threads[t].RowConsumed?
    requires s.threads[t].use.capability.terms.id !in s.capabilities
    ensures WriteBack(s, t).capabilities == s.capabilities && WriteBack(s, t).db == s.db
  {
  }

  lemma WritesCopy(s: State, t: nat)
    requires t in s.threads && s.threads[t].RowConsumed?
    requires s.threads[t].use.capability.terms.id in s.capabilities
    ensures var c := s.threads[t].use.capability;
            WriteBack(s, t).capabilities == s.capabilities[c.terms.id := c] && WriteBack(s, t).db == s.db
  {
  }

  /** A durable change that ends row `id` and leaves the others breaks the
      mirror exactly when the entry is live. */
  lemma RowEndMirrors(s: State, s': State, id: Id)
    requires Mirror(s) && s'.capabilities == s.capabilities
    requires id in s'.db.capabilities && !s'.db.capabilities[id].IsLive()
    requires forall other <- s.db.capabilities ::
               other != id ==> other in s'.db.capabilities && s'.db.capabilities[other] == s.db.capabilities[other]
    ensures Mirror(s') <==> !LiveEntry(s, id)
  {
    if LiveEntry(s, id) {
      assert !InStep(s'.db.capabilities, id, s'.capabilities[id]);
    }
  }

  lemma ConsumeRowMirrors(
    env: Env, s: State, t: nat, execution: Id, content: Ledger.EventContent, stored: bool)
    requires Mirror(s)
    ensures var step := Consume(t, DoConsumeRow(execution, content, stored));
            Mirror(ConsumeRow(env, s, t, execution, content, stored)) <==> !(Commits(env, s, step) && EndsLive(s, step))
  {
    hide Transact, TotpClaim, Mirror, LiveEntry;
    var s' := ConsumeRow(env, s, t, execution, content, stored);
    if Commits(env, s, Consume(t, DoConsumeRow(execution, content, stored))) {
      RowEndMirrors(s, s', s.threads[t].use.capability.terms.id);
    } else {
      SameMirror(s, s');
    }
  }

  lemma SameMirror(s: State, s': State)
    requires s'.capabilities == s.capabilities && s'.db == s.db
    ensures Mirror(s') <==> Mirror(s)
  {
  }

  lemma RevokeRowMirrors(env: Env, s: State, t: nat, id: Id, content: Ledger.EventContent, stored: bool)
    requires Mirror(s)
    ensures var step := Withdraw(t, DoRevokeRow(id, content, stored));
            Mirror(RevokeRow(env, s, t, id, content, stored)) <==> !(Commits(env, s, step) && EndsLive(s, step))
  {
    hide Transact, Mirror, LiveEntry;
    var s' := RevokeRow(env, s, t, id, content, stored);
    if Commits(env, s, Withdraw(t, DoRevokeRow(id, content, stored))) {
      RowEndMirrors(s, s', id);
    } else {
      SameMirror(s, s');
    }
  }

  lemma SpendOAuthRowMirrors(s: State, t: nat, stored: bool)
    requires Mirror(s)
    ensures Mirror(SpendOAuthRow(s, t, stored)) <==> !SpendsLive(s, Callback(t, DoSpendOAuthRow(stored)))
  {
    hide Mirror, LiveEntry;
    var s' := SpendOAuthRow(s, t, stored);
    if t in s.threads && s.threads[t].OAuthTaken? && stored && Store.Consumable(s.db, s.threads[t].oauth) {
      RowEndMirrors(s, s', s.threads[t].oauth);
    } else {
      SameMirror(s, s');
    }
  }

  lemma SweepMirrors(s: State, s': State, hash: Bytes)
    requires Mirror(s) && s'.capabilities == s.capabilities && s'.db == Store.RevokeOtherPolicies(s.db, hash)
    ensures Mirror(s') <==>
            !exists id <- s.capabilities :: LiveEntry(s, id) && s.capabilities[id].terms.subject.policyHash != hash
  {
    forall id <- s.capabilities
      ensures InStep(s'.db.capabilities, id, s.capabilities[id])
              <==> !(LiveEntry(s, id) && s.capabilities[id].terms.subject.policyHash != hash)
    {
      assert InStep(s.db.capabilities, id, s.capabilities[id]);
    }
  }

  lemma ReloadRowsMirrors(env: Env, s: State, t: nat, hash: Bytes, content: Ledger.EventContent, stored: bool)
    requires Mirror(s)
    ensures var step := Withdraw(t, DoReloadRows(hash, content, stored));
            Mirror(ReloadRows(env, s, t, hash, content, stored)) <==> !(Commits(env, s, step) && EndsLive(s, step))
  {
    hide Transact, Mirror, LiveEntry, Store.RevokeOtherPolicies;
    var s' := ReloadRows(env, s, t, hash, content, stored);
    if Commits(env, s, Withdraw(t, DoReloadRows(hash, content, stored))) {
      SweepMirrors(s, s', hash);
    } else {
      SameMirror(s, s');
    }
  }

  /** In every state where memory mirrors the store, and for every step: the
      mirror breaks if and only if the step is on the list. */
  lemma BreaksExactly(env: Env, s: State, step: Step)
    requires Mirror(s)
    ensures Mirror(Next(env, s, step)) <==> !Breaks(env, s, step)
  {
    hide Mirror, Commits, MintRow, PublishCapability, ConsumeRow, WriteBack, Cancel, RevokeSessionEntries, ReloadRows,
         RevokePolicyEntries, RevokeRow, RevokeEntry, DisableAgent, SpendOAuthRow, SpendOAuthEntry, Restart,
         LiveEntry, InStep, Store.Consumable;
    match step
    case Issue(t, DoMintRow(id, now, content, stored)) => MintRowMirrors(env, s, t, id, now, content, stored);
    case Issue(t, DoPublishCapability) => PublishMirrors(s, t);
    case Consume(t, DoConsumeRow(execution, content, stored)) =>
      ConsumeRowMirrors(env, s, t, execution, content, stored);
    case Consume(t, DoWriteBack) => WriteBackMirrors(s, t);
    case Withdraw(_, DoCancel(agent, request)) => CancelMirrors(s, agent, request);
    case Withdraw(t, DoRevokeSessionEntries) => RevokeSessionEntriesMirrors(s, t);
    case Withdraw(t, DoReloadRows(hash, content, stored)) => ReloadRowsMirrors(env, s, t, hash, content, stored);
    case Withdraw(t, DoRevokePolicyEntries) => RevokePolicyEntriesMirrors(s, t);
    case Withdraw(t, DoRevokeRow(id, content, stored)) => RevokeRowMirrors(env, s, t, id, content, stored);
    case Withdraw(t, DoRevokeEntry) => RevokeEntryMirrors(s, t);
    case Withdraw(_, DoDisableAgent(agent)) => DisableAgentMirrors(s, agent);
    case Callback(t, DoSpendOAuthRow(stored)) => SpendOAuthRowMirrors(s, t, stored);
    case Callback(t, DoSpendOAuthEntry(exchanged)) => SpendOAuthEntryMirrors(s, t, exchanged);
    case World(DoRestart(signer, policyHash, hashRead)) => RestartMirrors(s, signer, policyHash, hashRead);
    case _ => StillMirrors(env, s, step);
  }

  // ------------------------------------------------------------------- runs

  /** What reachable states add: a capability in the hands of its minting thread
      is issued and unused, and a copy that was consumed is not live. */
  ghost predicate Reached(s: State) {
    BrokerBinding.BindingsOk(s) && Store.LiveUnused(s.db)
  }

  /** Publishing breaks the mirror when the row has ended in the meantime. */
  predicate PublishesRevoked(s: State, step: Step) {
    match step
    case Issue(t, DoPublishCapability) =>
      && t in s.threads && s.threads[t].RowMinted?
      && var id := s.threads[t].capability.terms.id;
         !(id in s.db.capabilities && s.db.capabilities[id].IsLive())
    case _ => false
  }

  /** The list, as far as runs of the broker can get to it. */
  predicate BreaksInRuns(env: Env, s: State, step: Step) {
    PublishesRevoked(s, step) || SpendsLive(s, step) || (Commits(env, s, step) && EndsLive(s, step))
  }

  lemma PublishedIsIssued(s: State, t: nat)
    requires Reached(s) && t in s.threads && s.threads[t].RowMinted?
    ensures PublishesEnded(s, Issue(t, DoPublishCapability)) <==> PublishesRevoked(s, Issue(t, DoPublishCapability))
  {
    hide BrokerBinding.BindingsOk, BrokerBinding.RowsOk;
    var c := s.threads[t].capability;
    BrokerBinding.PointIs(s, t);
    RowsAre(s);
    if c.terms.id in s.db.capabilities {
      RowIs(s, c.terms.id);
      MintIs(s, c.terms.id);
    }
  }

  lemma RowsAre(s: State)
    requires BrokerBinding.BindingsOk(s)
    ensures BrokerBinding.RowsOk(s.db.capabilities, s.history.mints)
  {
  }

  lemma RowIs(s: State, id: Id)
    requires BrokerBinding.RowsOk(s.db.capabilities, s.history.mints) && id in s.db.capabilities
    ensures BrokerBinding.RowOk(s.history.mints, id, s.db.capabilities[id])
  {
  }

  lemma MintIs(s: State, id: Id)
    requires BrokerBinding.BindingsOk(s) && id in s.history.mints
    ensures BrokerBinding.Follows(s.history.mints[id].authorization, s.history.mints[id].terms)
  {
    assert BrokerBinding.MintOk(s.history.measured, s.grants, s.history.mints[id]);
  }

  lemma WrittenBackIsConsumed(s: State, t: nat)
    requires Reached(s) && t in s.threads && s.threads[t].RowConsumed?
    ensures !PublishesEnded(s, Consume(t, DoWriteBack))
  {
    hide BrokerBinding.BindingsOk;
    BrokerBinding.PointIs(s, t);
  }

  lemma SameList(env: Env, s: State, step: Step)
    requires Reached(s)
    ensures Breaks(env, s, step) <==> BreaksInRuns(env, s, step)
  {
    hide Reached, Commits, EndsLive, SpendsLive, InStep;
    match step
    case Issue(t, DoPublishCapability) =>
      if t in s.threads && s.threads[t].RowMinted? {
        PublishedIsIssued(s, t);
      }
    case Consume(t, DoWriteBack) =>
      if t in s.threads && s.threads[t].RowConsumed? {
        WrittenBackIsConsumed(s, t);
      }
    case _ =>
  }

  lemma ReachedKeeps(env: Env, s: State, step: Step)
    requires Reached(s)
    ensures Reached(Next(env, s, step))
  {
    hide Next, BrokerBinding.BindingsOk, Store.LiveUnused, Store.Apply, BrokerDurable.Transaction;
    BrokerBinding.StepKeeps(env, s, step);
    BrokerDurable.StepDb(env, s, step);
    if BrokerDurable.Transaction(s, step).Some? {
      Store.ApplyKeepsUnused(s.db, BrokerDurable.Transaction(s, step).value);
    }
  }

  /** The mirror holds all along the run. */
  ghost predicate MirrorsAlong(env: Env, s: State, steps: seq<Step>)
    decreases |steps|
  {
    Mirror(s) && (steps != [] ==> MirrorsAlong(env, Next(env, s, steps[0]), steps[1..]))
  }

  /** No step of the run is on the list when it is taken. */
  ghost predicate NoneBreaks(env: Env, s: State, steps: seq<Step>)
    decreases |steps|
  {
    steps != [] ==> !BreaksInRuns(env, s, steps[0]) && NoneBreaks(env, Next(env, s, steps[0]), steps[1..])
  }

  lemma {:induction false} MirrorsUntilBroken(env: Env, s: State, steps: seq<Step>)
    requires Reached(s) && Mirror(s)
    ensures MirrorsAlong(env, s, steps) <==> NoneBreaks(env, s, steps)
    decreases |steps|
  {
    hide Next, Mirror, Reached, BreaksInRuns, Breaks;
    if steps != [] {
      var next := Next(env, s, steps[0]);
      BreaksExactly(env, s, steps[0]);
      SameList(env, s, steps[0]);
      ReachedKeeps(env, s, steps[0]);
      if Mirror(next) {
        MirrorsUntilBroken(env, next, steps[1..]);
      }
    }
  }

  /** From an empty store, in every interleaving and across restarts: memory
      mirrors the store all along the run if and only if no step of it is on the
      list at the time. */
  lemma MirrorHoldsIffNoneBreaks(env: Env, signer: Ledger.Signer, policyHash: Bytes, steps: seq<Step>)
    ensures MirrorsAlong(env, Initial(signer, policyHash), steps)
            <==> NoneBreaks(env, Initial(signer, policyHash), steps)
  {
    hide MirrorsAlong, NoneBreaks, Audit.Genesis;
    MirrorsUntilBroken(env, Initial(signer, policyHash), steps);
  }
}
