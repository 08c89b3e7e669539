/** Whole runs from an empty store, step by step: one that gets a one-time code
    released and its result reported, and for each property that does not hold a
    run that shows it. Every one of them is a run under any cryptography. */
module BrokerRuns {
  import opened ByteStrings
  import opened Wrappers
  import opened Domain
  import opened Broker
  import opened BrokerFrame
  import opened BrokerReach
  import opened BrokerProgress
  import Audit
  import BrokerMirror
  import BrokerOverwrite
  import BrokerReload
  import Ledger
  import Policy
  import Store
  import Totp
  import Verifier

  // ------------------------------------------------------------ running a list

  lemma One(env: Env, s: State, a: Step)
    ensures Run(env, s, [a]) == Next(env, s, a)
  {
    hide Next;
    assert [a][1..] == [];
    assert Run(env, Next(env, s, a), []) == Next(env, s, a);
  }

  lemma Two(env: Env, s: State, a: Step, b: Step)
    ensures Run(env, s, [a, b]) == Next(env, Next(env, s, a), b)
  {
    hide Next;
    assert [a, b][1..] == [b];
    One(env, Next(env, s, a), b);
  }

  lemma Three(env: Env, s: State, a: Step, b: Step, c: Step)
    ensures Run(env, s, [a, b, c]) == Next(env, Next(env, Next(env, s, a), b), c)
  {
    hide Next;
    assert [a, b, c][1..] == [b, c];
    Two(env, Next(env, s, a), b, c);
  }

  lemma Four(env: Env, s: State, a: Step, b: Step, c: Step, d: Step)
    ensures Run(env, s, [a, b, c, d]) == Next(env, Next(env, Next(env, Next(env, s, a), b), c), d)
  {
    hide Next;
    assert [a, b, c, d][1..] == [b, c, d];
    Three(env, Next(env, s, a), b, c, d);
  }

  lemma Five(env: Env, s: State, a: Step, b: Step, c: Step, d: Step, e: Step)
    ensures Run(env, s, [a, b, c, d, e])
            == Next(env, Next(env, Next(env, Next(env, Next(env, s, a), b), c), d), e)
  {
    hide Next;
    assert [a, b, c, d, e][1..] == [b, c, d, e];
    Four(env, Next(env, s, a), b, c, d, e);
  }

  lemma {:induction false} Chained(env: Env, s: State, xs: seq<Step>, ys: seq<Step>)
    ensures Run(env, s, xs + ys) == Run(env, Run(env, s, xs), ys)
    decreases |xs|
  {
    hide Next;
    if xs == [] {
      assert xs + ys == ys;
    } else {
      assert (xs + ys)[0] == xs[0] && (xs + ys)[1..] == xs[1..] + ys;
      Chained(env, Next(env, s, xs[0]), xs[1..], ys);
    }
  }

  // --------------------------------------------------------------- the records

  /** The `n`-th record; its id is `n` bytes long. */
  function Note(n: nat): Ledger.EventContent {
    BLANK.(eventId := seq(n, _ => 0))
  }

  const NOTE_1 := Note(1)
  const NOTE_2 := Note(2)
  const NOTE_4 := Note(4)

  /** Fewer than `n` records so far, and the next one can be stored. */
  ghost predicate Noted(l: Ledger.Log, n: int) {
    && Writable(l)
    && forall i :: 0 <= i < |l.events| ==> |l.events[i].eventId| < n
  }

  lemma NoteIsRecordable(env: Env, l: Ledger.Log, n: nat)
    requires Noted(l, n)
    ensures Recordable(env, l, Note(n))
  {
  }

  lemma NoteIsNoted(env: Env, l: Ledger.Log, n: nat)
    requires Noted(l, n)
    ensures Noted(LogWith(env, l, Note(n)), n + 1)
  {
    hide Audit.ComputeEventHash;
  }

  // ---------------------------------------------------------------- the actors

  const SIGNER := Ledger.Signer(1, seq(32, _ => 0), [], [])
  const POLICY: Bytes := [1]
  const NEXT_POLICY: Bytes := [2]
  const REQUEST: Id := [3]
  const AGENT: Id := [4]
  const SESSION: Id := [5]
  const CAPABILITY: Id := [6]
  const EXECUTION: Id := [7]

  /** The threads: who asks, who administers, who polls, consumes, reports. */
  const HANDLER: nat := 1
  const ADMIN: nat := 2
  const BROWSER: nat := 3
  const EXECUTOR: nat := 4
  const REPORTER: nat := 5

  const TAB: nat := 0
  const NO_ORIGIN := Origin([])
  const GENERATOR := Totp.Generator(30, 6)
  const TOTP := Choice([], [], AuthenticateTotp, [], [], Some(GENERATOR))
  const MANAGED := Session([], [], Ascii("managed"), true, 0)
  const POSITION := BindingOf(SESSION, [], TAB, NO_PAGE)
  const SEEN := Measurement(MANAGED, NO_PAGE, NO_ORIGIN, 0)

  const ALLOWED := Authorization(
    Subject(REQUEST, AGENT, [], AuthenticateTotp, [], [], POLICY), POSITION, SEEN, [],
    Policy.RiskOf(AuthenticateTotp, false, MANAGED.assurance), Some(GENERATOR), false, 30, 60)

  /** One thread is at work, and it is here. */
  ghost predicate Busy(s: State, t: nat, p: Point) {
    s.threads == map[t := p]
  }

  ghost predicate NoDeeds(h: History) {
    h.offered == [] && h.released == [] && h.codes == map[]
  }

  const NO_TABLES := Store.Tables(map[], map[], map[], map[])

  /** The store and the broker's own maps are as they were opened. */
  ghost predicate Untouched(s: State) {
    && s.boot == 0 && s.db == NO_TABLES && s.grants == map[]
    && s.approvals == map[] && s.capabilities == map[] && s.generators == map[] && s.offers == map[]
    && s.oauth == map[] && s.executions == map[] && NoDeeds(s.history)
  }

  /** The session and its page, and the request as it was made. */
  ghost predicate Made(s: State) {
    && s.sessions == map[SESSION := MANAGED] && HasPage(s, SESSION, TAB) && PageOf(s, SESSION, TAB) == NO_PAGE
    && Cancellable(s, AGENT, REQUEST)
  }

  /** The request has got as far as `p`; nothing has been minted. */
  ghost predicate Asking(s: State, p: Point, policyHash: Bytes, noted: int) {
    Busy(s, HANDLER, p) && Untouched(s) && Made(s) && s.policyHash == policyHash && Noted(s.log, noted)
  }

  // ------------------------------------------------------------------- request

  const REGISTER := World(DoRegisterSession(SESSION, [], [], 0))
  const SHOW := World(DoReportPage(SESSION, TAB, NO_PAGE))
  const SUBMIT := Ask(HANDLER, DoSubmit(REQUEST, AGENT, []))
  const BIND := Ask(HANDLER, DoBindAgent)
  const MARK := Ask(HANDLER, DoMarkRequested(0))
  const MAKING: seq<Step> := [REGISTER, SHOW, SUBMIT, BIND, MARK]

  lemma PageStays(s: State, s': State)
    requires s'.pages == s.pages
    ensures HasPage(s', SESSION, TAB) == HasPage(s, SESSION, TAB)
    ensures PageOf(s', SESSION, TAB) == PageOf(s, SESSION, TAB)
  {
  }

  lemma Makes(env: Env)
    ensures Asking(Run(env, Initial(SIGNER, POLICY), MAKING), Screening(REQUEST, AGENT, 0), POLICY, 0)
  {
    hide Run, Next, Ascii, PageOf, HasPage, Audit.Genesis;
    var s0 := Initial(SIGNER, POLICY);
    Registers(env, s0, SESSION, [], [], 0);
    var s1 := Next(env, s0, REGISTER);
    Reports(env, s1, SESSION, TAB, NO_PAGE);
    var s2 := Next(env, s1, SHOW);
    Submits(env, s2, HANDLER, REQUEST, AGENT, []);
    var s3 := Next(env, s2, SUBMIT);
    Binds(env, s3, HANDLER, REQUEST, AGENT);
    var s4 := Next(env, s3, BIND);
    Marks(env, s4, HANDLER, REQUEST, AGENT, 0);
    Five(env, s0, REGISTER, SHOW, SUBMIT, BIND, MARK);
    PageStays(s2, Next(env, s4, MARK));
  }

  const SCREEN := Ask(HANDLER, DoRecordRequested(Note(0), true))
  const SEE := Ask(HANDLER, DoCheckSession(SESSION))
  const MEASURE := Ask(HANDLER, DoMeasure(TAB, NO_ORIGIN))
  const SEEING: seq<Step> := [SCREEN, SEE, MEASURE]

  lemma Looks(env: Env, s: State)
    requires Asking(s, Screening(REQUEST, AGENT, 0), POLICY, 0)
    ensures Asking(Run(env, s, SEEING), Measured(REQUEST, AGENT, POSITION, SEEN), POLICY, 1)
  {
    hide Run, Next, Ascii, PageOf, HasPage, Noted, Ledger.Append, Ledger.CreateEvent;
    NoteIsRecordable(env, s.log, 0);
    NoteIsNoted(env, s.log, 0);
    Screens(env, s, HANDLER, REQUEST, AGENT, 0, Note(0));
    var s1 := Next(env, s, SCREEN);
    Sees(env, s1, HANDLER, REQUEST, AGENT, 0, SESSION, MANAGED);
    var s2 := Next(env, s1, SEE);
    PageStays(s, s2);
    Measures(env, s2, HANDLER, REQUEST, AGENT, 0, SESSION, MANAGED, TAB, NO_ORIGIN);
    Three(env, s, SCREEN, SEE, MEASURE);
    PageStays(s, Next(env, s2, MEASURE));
  }

  const EVALUATE := Ask(HANDLER, DoEvaluate(TOTP, Allowed(false, 30, 60)))
  const ROUTE := Ask(HANDLER, DoRoute(None, true))
  const JUDGING: seq<Step> := [EVALUATE, ROUTE]

  lemma Judges(env: Env, s: State)
    requires Asking(s, Measured(REQUEST, AGENT, POSITION, SEEN), POLICY, 1)
    ensures Asking(Run(env, s, JUDGING), Minting(ALLOWED, ByPolicy), POLICY, 1)
  {
    hide Run, Next, Ascii, PageOf, HasPage, Noted, Policy.RiskOf;
    Evaluates(env, s, HANDLER, REQUEST, AGENT, POSITION, SEEN, TOTP, 30, 60);
    var s1 := Next(env, s, EVALUATE);
    RoutesByPolicy(env, s1, HANDLER, ALLOWED, None);
    Two(env, s, EVALUATE, ROUTE);
    PageStays(s, Next(env, s1, ROUTE));
  }

  const ASKING: seq<Step> := MAKING + SEEING + JUDGING

  /** The request has been judged; nothing has been minted yet. */
  lemma Asks(env: Env)
    ensures Asking(Run(env, Initial(SIGNER, POLICY), ASKING), Minting(ALLOWED, ByPolicy), POLICY, 1)
  {
    hide Run, Asking, Initial;
    var s0 := Initial(SIGNER, POLICY);
    Makes(env);
    Looks(env, Run(env, s0, MAKING));
    Chained(env, s0, MAKING, SEEING);
    Judges(env, Run(env, s0, MAKING + SEEING));
    Chained(env, s0, MAKING + SEEING, JUDGING);
  }

  // --------------------------------------------------------------- what is minted

  const MINTED := NewCapability(ALLOWED, CAPABILITY, 0)
  const ISSUED := Store.CapabilityRow(REQUEST, SESSION, POLICY, Issued, 1, 0, 0)
  const ONE_ROW := NO_TABLES.(capabilities := map[CAPABILITY := ISSUED])

  lemma MintedIs()
    ensures NewRow(ALLOWED, 0) == ISSUED && MINTED.IsLive() && ISSUED.IsLive()
    ensures MINTED.terms.id == CAPABILITY && MINTED.terms.subject == ALLOWED.subject && MINTED.terms.binding == POSITION
    ensures MINTED.usedCount == 0 && MINTED.state == Issued && MINTED.terms.maxUses == 1
    ensures MINTED.terms.consumeDeadline == 30 * NANOS && MINTED.terms.issuedAt == 0
  {
    hide Ascii, Policy.RiskOf;
  }

  /** The row is there, and perhaps its entry. */
  ghost predicate Issuing(
    s: State, p: Point, entries: map<Id, Capability>, generators: map<Id, Option<Totp.Generator>>, noted: int)
  {
    && Busy(s, HANDLER, p) && Made(s) && Noted(s.log, noted) && s.db == ONE_ROW && s.capabilities == entries
    && s.generators == generators && s.offers == map[] && s.executions == map[] && NoDeeds(s.history)
  }

  ghost predicate Halfway(s: State, noted: int) {
    Issuing(s, RowMinted(MINTED, Some(GENERATOR)), map[], map[], noted)
  }

  const ENTRIES: map<Id, Capability> := map[CAPABILITY := MINTED]
  const METADATA: map<Id, Option<Totp.Generator>> := map[CAPABILITY := Some(GENERATOR)]

  ghost predicate Entered(s: State, noted: int) {
    Issuing(s, EntryMinted(MINTED), ENTRIES, METADATA, noted)
  }

  function Minted(noted: nat): Step {
    Issue(HANDLER, DoMintRow(CAPABILITY, 0, Note(noted), true))
  }

  lemma Mints(env: Env, s: State, policyHash: Bytes, noted: nat)
    requires Asking(s, Minting(ALLOWED, ByPolicy), policyHash, noted)
    ensures Halfway(Run(env, s, [Minted(noted)]), noted + 1)
    ensures Run(env, s, [Minted(noted)]).policyHash == policyHash
  {
    hide Run, Next, Ascii, PageOf, HasPage, Noted, NewCapability, NewRow, Ledger.Append, Ledger.CreateEvent;
    NoteIsRecordable(env, s.log, noted);
    NoteIsNoted(env, s.log, noted);
    MintedIs();
    Issues(env, s, HANDLER, ALLOWED, ByPolicy, CAPABILITY, 0, Note(noted));
    One(env, s, Minted(noted));
    PageStays(s, Next(env, s, Minted(noted)));
  }

  const MINTING: seq<Step> := [Minted(1)]

  lemma MintsRow(env: Env)
    ensures Halfway(Run(env, Initial(SIGNER, POLICY), ASKING + MINTING), 2)
  {
    hide Run, Asking, Initial, Halfway;
    Asks(env);
    Mints(env, Run(env, Initial(SIGNER, POLICY), ASKING), POLICY, 1);
    Chained(env, Initial(SIGNER, POLICY), ASKING, MINTING);
  }

  // ------------------------------------------------- what does not hold: reload

  /** A reload to the next policy, all three blocks of it, while the request is
      between judgement and mint. */
  const SWEEP := Withdraw(ADMIN, DoReloadRows(NEXT_POLICY, Note(1), true))
  const REPLACE := Withdraw(ADMIN, DoReplacePolicy)
  const REVOKE_OTHERS := Withdraw(ADMIN, DoRevokePolicyEntries)
  const RELOADING: seq<Step> := [SWEEP, REPLACE, REVOKE_OTHERS]

  lemma SweepsNothing(env: Env, s: State)
    requires ADMIN !in s.threads && s.db == NO_TABLES && Noted(s.log, 1)
    ensures Next(env, s, SWEEP)
            == s.(threads := s.threads[ADMIN := RowsRevoked(NEXT_POLICY)], log := LogWith(env, s.log, NOTE_1))
  {
    hide Next, Noted, Ledger.Append, Ledger.CreateEvent;
    NoteIsRecordable(env, s.log, 1);
    assert Store.RevokeOtherPolicies(NO_TABLES, NEXT_POLICY) == NO_TABLES;
    WithdrawIs(env, s, ADMIN, DoReloadRows(NEXT_POLICY, Note(1), true));
  }

  lemma RevokesNothing(env: Env, s: State)
    requires Was(s, ADMIN) == Some(PolicyReplaced(NEXT_POLICY)) && s.capabilities == map[]
    ensures Next(env, s, REVOKE_OTHERS) == s.(threads := s.threads - {ADMIN})
  {
    hide Next;
    WithdrawIs(env, s, ADMIN, DoRevokePolicyEntries);
    assert RevokedAmong(map[], OfOtherPolicies(map[], NEXT_POLICY)) == map[];
  }

  lemma Reloads(env: Env, s: State)
    requires Asking(s, Minting(ALLOWED, ByPolicy), POLICY, 1)
    ensures Asking(Run(env, s, RELOADING), Minting(ALLOWED, ByPolicy), NEXT_POLICY, 2)
  {
    hide Run, Next, Ascii, PageOf, HasPage, Noted, LogWith;
    NoteIsNoted(env, s.log, 1);
    SweepsNothing(env, s);
    var s1 := Next(env, s, SWEEP);
    BrokerReload.Replaces(env, s1, ADMIN, NEXT_POLICY);
    var s2 := Next(env, s1, REPLACE);
    RevokesNothing(env, s2);
    var s3 := Next(env, s2, REVOKE_OTHERS);
    assert s3.threads == map[HANDLER := Minting(ALLOWED, ByPolicy)];
    Three(env, s, SWEEP, REPLACE, REVOKE_OTHERS);
    PageStays(s, s3);
  }

  const STALE_MINT: seq<Step> := ASKING + RELOADING + [Minted(2)]

  /** A live row of policy `hash`, while another is in force. */
  ghost predicate Stale(s: State, id: Id, hash: Bytes) {
    && s.policyHash != hash
    && id in s.db.capabilities && s.db.capabilities[id].IsLive() && s.db.capabilities[id].policyHash == hash
  }

  /** After a reload that ran to its end, a capability of the policy that was
      replaced is live in the store. */
  lemma ReloadIsOvertaken(env: Env)
    ensures Stale(Run(env, Initial(SIGNER, POLICY), STALE_MINT), CAPABILITY, POLICY)
  {
    hide Run, Asking, Made, Noted, Initial, NewCapability;
    var s0 := Initial(SIGNER, POLICY);
    Asks(env);
    Reloads(env, Run(env, s0, ASKING));
    Chained(env, s0, ASKING, RELOADING);
    Mints(env, Run(env, s0, ASKING + RELOADING), NEXT_POLICY, 2);
    Chained(env, s0, ASKING + RELOADING, [Minted(2)]);
    MintedIs();
  }

  // ------------------------------------------------- what does not hold: mirror

  /** The row is revoked between the two halves of its mint. */
  const REVOKE := Withdraw(ADMIN, DoRevokeRow(CAPABILITY, Note(2), true))
  const REVOKE_ENTRY := Withdraw(ADMIN, DoRevokeEntry)
  const ENTER := Issue(HANDLER, DoPublishCapability)
  const REVOKING: seq<Step> := [REVOKE, REVOKE_ENTRY, ENTER]

  lemma RowRevokes()
    ensures Store.RevokeCapability(ONE_ROW, CAPABILITY)
            == Some(NO_TABLES.(capabilities := map[CAPABILITY := ISSUED.(state := Revoked)]))
  {
    var revoked := ISSUED.(state := Revoked);
    assert ONE_ROW.capabilities[CAPABILITY := revoked] == map[CAPABILITY := revoked];
  }

  lemma RevokesRow(env: Env, s: State)
    requires Halfway(s, 2)
    ensures var s' := Next(env, s, REVOKE);
            && s'.threads == s.threads[ADMIN := RowRevoked(CAPABILITY)] && s'.capabilities == map[]
            && s'.db.capabilities == map[CAPABILITY := ISSUED.(state := Revoked)]
  {
    hide Next, Noted, Made, Ledger.Append, Ledger.CreateEvent, NewCapability, Store.RevokeCapability;
    NoteIsRecordable(env, s.log, 2);
    RowRevokes();
    WithdrawIs(env, s, ADMIN, DoRevokeRow(CAPABILITY, Note(2), true));
  }

  /** There is no entry yet to be revoked. */
  lemma FindsNoEntry(env: Env, s: State)
    requires Was(s, ADMIN) == Some(RowRevoked(CAPABILITY)) && s.capabilities == map[]
    ensures Next(env, s, REVOKE_ENTRY) == s.(threads := s.threads - {ADMIN})
  {
    hide Next;
    WithdrawIs(env, s, ADMIN, DoRevokeEntry);
  }

  lemma PublishesRevoked(env: Env, s: State)
    requires Halfway(s, 2)
    ensures !BrokerMirror.Mirror(Run(env, s, REVOKING))
  {
    hide Run, Next, Noted, Made, NewCapability;
    RevokesRow(env, s);
    var s1 := Next(env, s, REVOKE);
    FindsNoEntry(env, s1);
    var s2 := Next(env, s1, REVOKE_ENTRY);
    MintedIs();
    Enters(env, s2, HANDLER, MINTED, Some(GENERATOR));
    Three(env, s, REVOKE, REVOKE_ENTRY, ENTER);
    var s' := Run(env, s, REVOKING);
    assert CAPABILITY in s'.capabilities && s'.capabilities[CAPABILITY] == MINTED;
    assert !BrokerMirror.InStep(s'.db.capabilities, CAPABILITY, MINTED);
  }

  const BROKEN_MIRROR: seq<Step> := ASKING + MINTING + REVOKING

  /** A run in which memory shows a live capability whose row is revoked. */
  lemma MirrorBreaks(env: Env)
    ensures !BrokerMirror.Mirror(Run(env, Initial(SIGNER, POLICY), BROKEN_MIRROR))
  {
    hide Run, Halfway, Initial, BrokerMirror.Mirror;
    MintsRow(env);
    PublishesRevoked(env, Run(env, Initial(SIGNER, POLICY), ASKING + MINTING));
    Chained(env, Initial(SIGNER, POLICY), ASKING + MINTING, REVOKING);
  }

  // ------------------------------------------------ what does not hold: cancel

  lemma EntersAll(env: Env, s: State)
    requires Halfway(s, 2)
    ensures Entered(Run(env, s, [ENTER]), 2)
  {
    hide Run, Next, Noted, NewCapability, PageOf, HasPage;
    MintedIs();
    Enters(env, s, HANDLER, MINTED, Some(GENERATOR));
    One(env, s, ENTER);
    PageStays(s, Next(env, s, ENTER));
  }

  const TO_ENTRY: seq<Step> := ASKING + MINTING + [ENTER]

  lemma MintsEntry(env: Env)
    ensures Entered(Run(env, Initial(SIGNER, POLICY), TO_ENTRY), 2)
  {
    hide Run, Halfway, Entered, Initial;
    MintsRow(env);
    EntersAll(env, Run(env, Initial(SIGNER, POLICY), ASKING + MINTING));
    Chained(env, Initial(SIGNER, POLICY), ASKING + MINTING, [ENTER]);
  }

  /** The agent cancels while the handler is about to queue the offer. */
  const CANCEL := Withdraw(ADMIN, DoCancel(AGENT, REQUEST))
  const QUEUE := Issue(HANDLER, DoQueueOffer)
  const REPORT := Ask(HANDLER, DoReport)

  /** The request reads as `state`, its capability is revoked. */
  ghost predicate Reads(s: State, state: RequestState) {
    && REQUEST in s.requests && s.requests[REQUEST] == state
    && CAPABILITY in s.capabilities && s.capabilities[CAPABILITY].state == Revoked
  }

  lemma RevokesMinted()
    ensures RevokedAmong(ENTRIES, OfRequest(ENTRIES, REQUEST)) == map[CAPABILITY := MINTED.(state := Revoked)]
  {
    hide NewCapability;
    MintedIs();
  }

  lemma CancelsRequest(env: Env, s: State)
    requires Entered(s, 2)
    ensures Reads(Next(env, s, CANCEL), Cancelled) && Next(env, s, CANCEL).threads == s.threads
  {
    hide Next, Noted, NewCapability, PageOf, HasPage, RevokedAmong, OfRequest;
    RevokesMinted();
    WithdrawIs(env, s, ADMIN, DoCancel(AGENT, REQUEST));
  }

  lemma ReportsOver(env: Env, s: State)
    requires Entered(s, 2)
    ensures Reads(Run(env, s, [CANCEL]), Cancelled) && Reads(Run(env, s, [CANCEL] + [QUEUE, REPORT]), CapabilityIssued)
  {
    hide Run, Next, Noted, Made, NewCapability, QueueOf;
    CancelsRequest(env, s);
    var s1 := Next(env, s, CANCEL);
    MintedIs();
    Queues(env, s1, HANDLER, MINTED);
    Notes(env, Next(env, s1, QUEUE), HANDLER, REQUEST, CapabilityIssued, true);
    One(env, s, CANCEL);
    Chained(env, s, [CANCEL], [QUEUE, REPORT]);
    Two(env, s1, QUEUE, REPORT);
  }

  /** The request is cancelled, and two steps later reported as issued; its
      capability stays revoked. */
  lemma CancelIsOverwritten(env: Env)
    ensures Reads(Run(env, Initial(SIGNER, POLICY), TO_ENTRY + [CANCEL]), Cancelled)
    ensures Reads(Run(env, Initial(SIGNER, POLICY), TO_ENTRY + ([CANCEL] + [QUEUE, REPORT])), CapabilityIssued)
  {
    hide Run, Entered, Initial, Reads;
    var s0 := Initial(SIGNER, POLICY);
    MintsEntry(env);
    ReportsOver(env, Run(env, s0, TO_ENTRY));
    Chained(env, s0, TO_ENTRY, [CANCEL]);
    Chained(env, s0, TO_ENTRY, [CANCEL] + [QUEUE, REPORT]);
  }

  // ------------------------------------------------------------ offer to release

  /** The offer waits for its session. */
  ghost predicate Queued(s: State) {
    && s.threads == map[] && s.sessions == map[SESSION := MANAGED] && Noted(s.log, 2)
    && s.db == ONE_ROW && s.capabilities == ENTRIES && s.generators == METADATA && s.executions == map[]
    && REQUEST in s.requests && s.offers == map[SESSION := [CAPABILITY]] && NoDeeds(s.history)
  }

  lemma QueuesAndReports(env: Env, s: State)
    requires Entered(s, 2)
    ensures Queued(Run(env, s, [QUEUE, REPORT]))
  {
    hide Run, Next, Noted, NewCapability, Ascii, PageOf, HasPage;
    MintedIs();
    assert QueueOf(s, SESSION) + [CAPABILITY] == [CAPABILITY];
    Queues(env, s, HANDLER, MINTED);
    Notes(env, Next(env, s, QUEUE), HANDLER, REQUEST, CapabilityIssued, true);
    Two(env, s, QUEUE, REPORT);
  }

  const ASK_NEXT := Poll(BROWSER, DoBeginNext(SESSION, 0))
  const POP := Poll(BROWSER, DoPopOffer)
  const INSPECT := Poll(BROWSER, DoInspectOffer(0, true))

  lemma BeginsPolling(env: Env, s: State)
    requires BROWSER !in s.threads && s.sessions == map[SESSION := MANAGED]
    ensures Next(env, s, ASK_NEXT) == s.(threads := s.threads[BROWSER := Polling(SESSION)])
  {
    hide Next, Ascii;
    PollIs(env, s, BROWSER, DoBeginNext(SESSION, 0));
  }

  lemma Pops(env: Env, s: State)
    requires Was(s, BROWSER) == Some(Polling(SESSION)) && s.offers == map[SESSION := [CAPABILITY]]
    ensures var s' := Next(env, s, POP);
            && SameDeeds(s.history, s'.history)
            && s' == s.(threads := s.threads[BROWSER := Popped(SESSION, CAPABILITY)], offers := s'.offers,
                        history := s'.history)
  {
    hide Next;
    PollIs(env, s, BROWSER, DoPopOffer);
  }

  const OFFERED: seq<Offer> := [Offer(SESSION, CAPABILITY)]

  /** What the broker has given away. */
  ghost predicate Deeds(h: History, released: seq<Id>, codes: map<Id, Code>) {
    h.offered == OFFERED && h.released == released && h.codes == codes
  }

  lemma Inspects(env: Env, s: State)
    requires Was(s, BROWSER) == Some(Popped(SESSION, CAPABILITY)) && s.capabilities == ENTRIES && NoDeeds(s.history)
    ensures var s' := Next(env, s, INSPECT);
            && Deeds(s'.history, [], map[])
            && s' == s.(threads := s.threads - {BROWSER}, oauth := s'.oauth, history := s'.history)
  {
    hide Next, NewCapability, PrepareOAuth;
    MintedIs();
    PollIs(env, s, BROWSER, DoInspectOffer(0, true));
  }

  /** The capability has been handed to the browser. */
  ghost predicate Offered(s: State) {
    && s.threads == map[] && s.sessions == map[SESSION := MANAGED] && Noted(s.log, 2)
    && s.db == ONE_ROW && s.capabilities == ENTRIES && s.generators == METADATA && s.executions == map[]
    && REQUEST in s.requests && Deeds(s.history, [], map[])
  }

  lemma Offers(env: Env, s: State)
    requires Queued(s)
    ensures Offered(Run(env, s, [ASK_NEXT, POP, INSPECT]))
  {
    hide Run, Next, Noted, NewCapability, Ascii;
    BeginsPolling(env, s);
    var s1 := Next(env, s, ASK_NEXT);
    Pops(env, s1);
    var s2 := Next(env, s1, POP);
    Inspects(env, s2);
    Three(env, s, ASK_NEXT, POP, INSPECT);
  }

  const USE := Use(MINTED.(state := Consumed, usedCount := 1), Some(GENERATOR), POSITION, 0)
  const RUNNING := Store.ExecutionRow(CAPABILITY, Consuming, Some(([], 0)))

  function TokenOf(env: Env): Claims {
    Verifier.MintClaims(MINTED.terms, env.audience, env.issuerKey)
  }

  function Present(env: Env): Step {
    Consume(EXECUTOR, DoBeginConsume(TokenOf(env), POSITION, true, 0))
  }

  const CHECK := Consume(EXECUTOR, DoSnapshot)

  lemma BeginsConsume(env: Env, s: State)
    requires EXECUTOR !in s.threads && s.sessions == map[SESSION := MANAGED]
    ensures Next(env, s, Present(env)) == s.(threads := s.threads[EXECUTOR := Keyed(TokenOf(env), POSITION, 0)])
  {
    hide Next, TokenOf, Ascii;
    ConsumeIs(env, s, EXECUTOR, DoBeginConsume(TokenOf(env), POSITION, true, 0));
  }

  lemma TokenPasses(env: Env)
    ensures TokenOf(env).jti == CAPABILITY
    ensures Verifier.Verify(MINTED, Some(TokenOf(env)), env.audience, POSITION, 0)
            == (Success(TokenOf(env)), USE.capability)
  {
    hide NewCapability;
    MintedIs();
  }

  lemma Snapshots(env: Env, s: State)
    requires Was(s, EXECUTOR) == Some(Keyed(TokenOf(env), POSITION, 0))
    requires s.capabilities == ENTRIES && s.generators == METADATA
    ensures Next(env, s, CHECK) == s.(threads := s.threads[EXECUTOR := Verified(USE)])
  {
    hide Next, NewCapability, Verifier.Verify;
    TokenPasses(env);
    MintedIs();
    ConsumeIs(env, s, EXECUTOR, DoSnapshot);
  }

  /** A copy of the entry has passed the verifier. */
  ghost predicate Passed(s: State) {
    && Busy(s, EXECUTOR, Verified(USE)) && Noted(s.log, 2) && REQUEST in s.requests && s.executions == map[]
    && s.db == ONE_ROW && Deeds(s.history, [], map[])
  }

  lemma Presents(env: Env, s: State)
    requires Offered(s)
    ensures Passed(Run(env, s, [Present(env), CHECK]))
  {
    hide Run, Next, Noted, NewCapability, Ascii, TokenOf;
    BeginsConsume(env, s);
    Snapshots(env, Next(env, s, Present(env)));
    Two(env, s, Present(env), CHECK);
  }

  const SPEND := Consume(EXECUTOR, DoConsumeRow(EXECUTION, Note(2), true))
  const WRITE_BACK := Consume(EXECUTOR, DoWriteBack)
  const TRACK := Consume(EXECUTOR, DoTrackExecution)

  lemma ClaimIs()
    ensures TotpClaim(USE) == Some(([], 0))
    ensures USE.capability.terms.id == CAPABILITY && USE.capability.terms.subject == ALLOWED.subject
  {
    hide NewCapability;
    MintedIs();
  }

  lemma RowSpends()
    ensures var next := Store.ConsumeWithExecution(ONE_ROW, CAPABILITY, EXECUTION, Some(([], 0)));
            next.Some? && next.value.executions == map[EXECUTION := RUNNING]
  {
  }

  lemma Spends(env: Env, s: State)
    requires Was(s, EXECUTOR) == Some(Verified(USE)) && Noted(s.log, 2) && s.db == ONE_ROW
    ensures var s' := Next(env, s, SPEND);
            && s'.db.executions == map[EXECUTION := RUNNING] && SameDeeds(s.history, s'.history)
            && s' == s.(threads := s.threads[EXECUTOR := RowConsumed(EXECUTION, USE)],
                        log := LogWith(env, s.log, NOTE_2), db := s'.db, history := s'.history)
  {
    hide Next, TokenOf, NewCapability, Noted, TotpClaim, Ledger.Append, Ledger.CreateEvent,
         Store.ConsumeWithExecution;
    NoteIsRecordable(env, s.log, 2);
    ClaimIs();
    RowSpends();
    ConsumeIs(env, s, EXECUTOR, DoConsumeRow(EXECUTION, Note(2), true));
  }

  /** The execution has its row and is tracked; nothing has been released. */
  ghost predicate Started(s: State) {
    && Busy(s, EXECUTOR, Releasing(EXECUTION, USE)) && Noted(s.log, 3) && REQUEST in s.requests
    && s.db.executions == map[EXECUTION := RUNNING]
    && s.executions == map[EXECUTION := Execution(CAPABILITY, REQUEST, Consuming)]
    && Deeds(s.history, [], map[])
  }

  lemma Starts(env: Env, s: State)
    requires Passed(s)
    ensures Started(Run(env, s, [SPEND, WRITE_BACK, TRACK]))
  {
    hide Run, Next, Noted, NewCapability, LogWith;
    NoteIsNoted(env, s.log, 2);
    Spends(env, s);
    var s1 := Next(env, s, SPEND);
    BrokerOverwrite.WritesBack(env, s1, EXECUTOR, EXECUTION, USE);
    var s2 := Next(env, s1, WRITE_BACK);
    ClaimIs();
    BrokerOverwrite.Tracks(env, s2, EXECUTOR, EXECUTION, USE);
    Three(env, s, SPEND, WRITE_BACK, TRACK);
  }

  /** The first code of the credential. */
  function CodeOf(env: Env): Code {
    Code([], GENERATOR, [], 0, Totp.CodeText(GENERATOR, env.hmac, [], 0))
  }

  const RELEASE := Consume(EXECUTOR, DoRelease(Some([]), Note(3), true))

  /** The code is out, and the executor is at work. */
  ghost predicate HandedOver(env: Env, s: State) {
    && s.threads == map[] && Noted(s.log, 4) && REQUEST in s.requests
    && s.db.executions == map[EXECUTION := RUNNING]
    && s.executions == map[EXECUTION := Execution(CAPABILITY, REQUEST, Consuming)]
    && Deeds(s.history, [EXECUTION], map[EXECUTION := CodeOf(env)])
  }

  lemma MakesCodeOf(env: Env)
    ensures MakeCode(env, USE, []) == Some(CodeOf(env)) && FieldsReady(env, USE, Some([]))
  {
    hide NewCapability, Totp.CodeText;
    ClaimIs();
  }

  lemma Releases(env: Env, s: State)
    requires Started(s)
    ensures HandedOver(env, Run(env, s, [RELEASE]))
  {
    hide Run, Next, Noted, NewCapability, CodeOf, FieldsReady, MakeCode, Ledger.Append, Ledger.CreateEvent;
    NoteIsRecordable(env, s.log, 3);
    NoteIsNoted(env, s.log, 3);
    MakesCodeOf(env);
    ConsumeIs(env, s, EXECUTOR, DoRelease(Some([]), Note(3), true));
    One(env, s, RELEASE);
  }

  const TO_OFFER: seq<Step> := TO_ENTRY + [QUEUE, REPORT] + [ASK_NEXT, POP, INSPECT]

  lemma ReachesOffer(env: Env)
    ensures Offered(Run(env, Initial(SIGNER, POLICY), TO_OFFER))
  {
    hide Run, Entered, Queued, Offered, Initial;
    var s0 := Initial(SIGNER, POLICY);
    MintsEntry(env);
    QueuesAndReports(env, Run(env, s0, TO_ENTRY));
    Chained(env, s0, TO_ENTRY, [QUEUE, REPORT]);
    Offers(env, Run(env, s0, TO_ENTRY + [QUEUE, REPORT]));
    Chained(env, s0, TO_ENTRY + [QUEUE, REPORT], [ASK_NEXT, POP, INSPECT]);
  }

  /** Everything from the request to the release. */
  function ReleaseRun(env: Env): seq<Step> {
    TO_OFFER + [Present(env), CHECK] + [SPEND, WRITE_BACK, TRACK] + [RELEASE]
  }

  /** The broker can do what it is for: a run from an empty store in which an
      offer goes out, an execution starts, and a one-time code is released. */
  lemma ReachesRelease(env: Env)
    ensures HandedOver(env, Run(env, Initial(SIGNER, POLICY), ReleaseRun(env)))
  {
    hide Run, Offered, Passed, Started, HandedOver, Initial, Present;
    var s0 := Initial(SIGNER, POLICY);
    var passed := TO_OFFER + [Present(env), CHECK];
    ReachesOffer(env);
    Presents(env, Run(env, s0, TO_OFFER));
    Chained(env, s0, TO_OFFER, [Present(env), CHECK]);
    Starts(env, Run(env, s0, passed));
    Chained(env, s0, passed, [SPEND, WRITE_BACK, TRACK]);
    Releases(env, Run(env, s0, passed + [SPEND, WRITE_BACK, TRACK]));
    Chained(env, s0, passed + [SPEND, WRITE_BACK, TRACK], [RELEASE]);
  }

  // ----------------------------------------------- what does not hold: outcome

  /** The executor reports success, and once more. */
  const BEGIN_RESULT := Finish(REPORTER, DoBeginResult(EXECUTION, true))
  const FINISH := Finish(REPORTER, DoFinishRow(Note(4), true))
  const FINISH_AGAIN := Finish(REPORTER, DoFinishRow(Note(5), true))
  const CONCLUDE := Finish(REPORTER, DoWriteExecution)
  const ANSWER := Ask(REPORTER, DoReport)
  const REPORTING: seq<Step> := [BEGIN_RESULT, FINISH, CONCLUDE, ANSWER]
  const REPORTING_AGAIN: seq<Step> := [BEGIN_RESULT, FINISH_AGAIN, CONCLUDE, ANSWER]

  const TRACKED := Execution(CAPABILITY, REQUEST, Consuming)
  const FINISHED := RUNNING.(state := Completed)

  lemma RowFinishes(db: Store.Tables)
    requires db.executions == map[EXECUTION := RUNNING]
    ensures Store.FinishExecution(db, EXECUTION, Completed) == Some(db.(executions := map[EXECUTION := FINISHED]))
  {
    assert db.executions[EXECUTION := FINISHED] == map[EXECUTION := FINISHED];
  }

  lemma FinishesRow(env: Env, s: State)
    requires Was(s, REPORTER) == Some(Finishing(EXECUTION, true)) && Noted(s.log, 4)
    requires s.db.executions == map[EXECUTION := RUNNING]
    ensures Next(env, s, FINISH)
            == s.(threads := s.threads[REPORTER := RowFinished(EXECUTION, Completed)],
                  log := LogWith(env, s.log, NOTE_4), db := s.db.(executions := map[EXECUTION := FINISHED]))
  {
    hide Next, Noted, Ledger.Append, Ledger.CreateEvent, Store.FinishExecution;
    NoteIsRecordable(env, s.log, 4);
    RowFinishes(s.db);
    FinishIs(env, s, REPORTER, DoFinishRow(Note(4), true));
  }

  lemma FindsRowFinished(env: Env, s: State)
    requires Was(s, REPORTER) == Some(Finishing(EXECUTION, true)) && Noted(s.log, 5)
    requires s.db.executions == map[EXECUTION := FINISHED]
    ensures Next(env, s, FINISH_AGAIN)
            == s.(threads := s.threads[REPORTER := RowFinished(EXECUTION, CompletedEvidenceLost)])
  {
    hide Next, Noted, Ledger.Append, Ledger.CreateEvent;
    NoteIsRecordable(env, s.log, 5);
    FinishIs(env, s, REPORTER, DoFinishRow(Note(5), true));
  }

  /** What row, memory and request say of the execution. */
  ghost predicate Says(s: State, row: ExecutionState, memory: ExecutionState) {
    && s.db.executions == map[EXECUTION := RUNNING.(state := row)]
    && s.executions == map[EXECUTION := TRACKED.(state := memory)]
    && REQUEST in s.requests && s.requests[REQUEST] == RequestOutcome(memory)
  }

  lemma WritesOutcome(env: Env, s: State, was: ExecutionState, outcome: ExecutionState)
    requires Was(s, REPORTER) == Some(RowFinished(EXECUTION, outcome))
    requires s.executions == map[EXECUTION := TRACKED.(state := was)]
    ensures Next(env, s, CONCLUDE)
            == s.(threads := s.threads[REPORTER := Reporting(REQUEST, RequestOutcome(outcome), false)],
                  executions := map[EXECUTION := TRACKED.(state := outcome)])
  {
    hide Next, RequestOutcome;
    FinishIs(env, s, REPORTER, DoWriteExecution);
    assert s.executions[EXECUTION := TRACKED.(state := outcome)] == map[EXECUTION := TRACKED.(state := outcome)];
  }

  /** The second half of a report, from the row to the answer. */
  lemma Concludes(env: Env, s: State, was: ExecutionState, outcome: ExecutionState)
    requires Busy(s, REPORTER, RowFinished(EXECUTION, outcome)) && REQUEST in s.requests
    requires s.executions == map[EXECUTION := TRACKED.(state := was)]
    ensures Next(env, Next(env, s, CONCLUDE), ANSWER)
            == s.(threads := map[], executions := map[EXECUTION := TRACKED.(state := outcome)],
                  requests := s.requests[REQUEST := RequestOutcome(outcome)])
  {
    hide Next, RequestOutcome;
    WritesOutcome(env, s, was, outcome);
    Notes(env, Next(env, s, CONCLUDE), REPORTER, REQUEST, RequestOutcome(outcome), false);
  }

  lemma ReportsOnce(env: Env, s: State)
    requires HandedOver(env, s)
    ensures Says(Run(env, s, REPORTING), Completed, Completed) && Idle(Run(env, s, REPORTING), 5)
  {
    hide Run, Next, Noted, CodeOf, RequestOutcome, LogWith;
    NoteIsNoted(env, s.log, 4);
    BrokerOverwrite.BeginsResult(env, s, REPORTER, EXECUTION, REQUEST);
    var s1 := Next(env, s, BEGIN_RESULT);
    FinishesRow(env, s1);
    Concludes(env, Next(env, s1, FINISH), Consuming, Completed);
    Four(env, s, BEGIN_RESULT, FINISH, CONCLUDE, ANSWER);
  }

  /** Nobody is at work. */
  ghost predicate Idle(s: State, noted: int) {
    s.threads == map[] && Noted(s.log, noted)
  }

  lemma ReportsTwice(env: Env, s: State)
    requires Says(s, Completed, Completed) && Idle(s, 5)
    ensures Says(Run(env, s, REPORTING_AGAIN), Completed, CompletedEvidenceLost)
  {
    hide Run, Next, Noted, RequestOutcome;
    BrokerOverwrite.BeginsResult(env, s, REPORTER, EXECUTION, REQUEST);
    var s1 := Next(env, s, BEGIN_RESULT);
    FindsRowFinished(env, s1);
    Concludes(env, Next(env, s1, FINISH_AGAIN), Completed, CompletedEvidenceLost);
    Four(env, s, BEGIN_RESULT, FINISH_AGAIN, CONCLUDE, ANSWER);
  }

  /** The executor reports success, and reports it again. */
  function OneReport(env: Env): seq<Step> {
    ReleaseRun(env) + REPORTING
  }

  function TwoReports(env: Env): seq<Step> {
    OneReport(env) + REPORTING_AGAIN
  }

  /** After the first report row and memory agree; after the second memory says
      that the evidence was lost, and the row that it was not. */
  lemma OutcomeIsRewritten(env: Env)
    ensures Says(Run(env, Initial(SIGNER, POLICY), OneReport(env)), Completed, Completed)
    ensures Says(Run(env, Initial(SIGNER, POLICY), TwoReports(env)), Completed, CompletedEvidenceLost)
  {
    hide Run, HandedOver, Says, Idle, Initial, ReleaseRun;
    var s0 := Initial(SIGNER, POLICY);
    ReachesRelease(env);
    ReportsOnce(env, Run(env, s0, ReleaseRun(env)));
    Chained(env, s0, ReleaseRun(env), REPORTING);
    ReportsTwice(env, Run(env, s0, OneReport(env)));
    Chained(env, s0, OneReport(env), REPORTING_AGAIN);
  }

  // ------------------------------------------------- what does not hold: chain

  /** Something is recorded; the broker is restarted and does not manage to read
      the last hash; something else is recorded. */
  const FIRST := World(DoRecordOther(Note(0), true))
  const REOPEN := World(DoRestart(SIGNER, POLICY, false))
  const SECOND := World(DoRecordOther(Note(1), true))
  const BLIND_RUN: seq<Step> := [FIRST, REOPEN, SECOND]

  lemma Records(env: Env, s: State, content: Ledger.EventContent)
    requires Recordable(env, s.log, content)
    ensures Next(env, s, World(DoRecordOther(content, true))) == s.(log := LogWith(env, s.log, content))
  {
    hide Next, Ledger.CreateEvent, Ledger.Append;
    WorldIs(env, s, DoRecordOther(content, true));
  }

  /** One record, and whoever goes on next starts after it. */
  ghost predicate OneRecord(l: Ledger.Log) {
    Noted(l, 1) && |l.events| == 1 && l.events[0].sequence == 1
  }

  lemma FirstIsRecorded(env: Env, policyHash: Bytes)
    ensures OneRecord(LogWith(env, Initial(SIGNER, policyHash).log, Note(0)))
    ensures Recordable(env, Initial(SIGNER, policyHash).log, Note(0))
  {
    hide Audit.Genesis, Audit.EventPreimage;
  }

  lemma OpenedBlind(l: Ledger.Log)
    requires OneRecord(l)
    ensures var reopened := Ledger.Reopen(l, SIGNER, false);
            && Noted(reopened, 1) && reopened.events == l.events
            && (Ledger.OpensBlind(l, false) ==> Ledger.BlindCursor(reopened))
  {
    hide Audit.Genesis;
  }

  /** Two records, of which the second does not link to the first unless the
      hash of the first happens to be the one of genesis. */
  ghost predicate Unlinked(env: Env, keys: map<nat, Bytes>, l: Ledger.Log) {
    && |l.events| == 2
    && (l.events[0].eventHash != Audit.Genesis() ==> !Audit.ChainValid(env.crypto, keys, l.events))
  }

  lemma SecondIsUnlinked(env: Env, keys: map<nat, Bytes>, l: Ledger.Log)
    requires OneRecord(l)
    ensures Recordable(env, Ledger.Reopen(l, SIGNER, false), Note(1))
    ensures Unlinked(env, keys, LogWith(env, Ledger.Reopen(l, SIGNER, false), Note(1)))
  {
    hide Audit.Genesis, Audit.ChainValid, Ledger.BlindCursor, Ledger.Reopen, Ledger.CreateEvent, Noted;
    var reopened := Ledger.Reopen(l, SIGNER, false);
    OpenedBlind(l);
    NoteIsRecordable(env, reopened, 1);
    if l.events[0].eventHash != Audit.Genesis() {
      Ledger.BlindRecordBreaks(env.crypto, keys, reopened, Note(1), true);
    }
  }

  /** A process that opened the log blind stores one record, and the chain that
      is stored no longer verifies, whatever keys are known. */
  lemma ChainBreaks(env: Env, keys: map<nat, Bytes>)
    ensures Unlinked(env, keys, Run(env, Initial(SIGNER, POLICY), BLIND_RUN).log)
  {
    hide Run, Next, LogWith, OneRecord, Unlinked, Recordable, Ledger.Reopen, Store.Recover, Audit.Genesis;
    var s0 := Initial(SIGNER, POLICY);
    FirstIsRecorded(env, POLICY);
    Records(env, s0, Note(0));
    var s1 := Next(env, s0, FIRST);
    RestartIs(env, s1, DoRestart(SIGNER, POLICY, false));
    var s2 := Next(env, s1, REOPEN);
    SecondIsUnlinked(env, keys, s1.log);
    Records(env, s2, Note(1));
    Three(env, s0, FIRST, REOPEN, SECOND);
  }
}
