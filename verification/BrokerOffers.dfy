/** One offer per capability, to its own session: the right to hand an offer out
    passes from the minting thread to a queue, to a polling thread, and is then
    spent or lost. */
module BrokerOffers {
  import opened ByteStrings
  import opened Wrappers
  import opened Domain
  import opened Broker
  import opened BrokerFrame
  import Ledger
  import Store

  /** The offer a thread may still queue or hand out. */
  function OfferOf(p: Point): Option<Offer> {
    match p
    case RowMinted(c, _) => Some(Offer(c.terms.binding.session, c.terms.id))
    case EntryMinted(c) => Some(Offer(c.terms.binding.session, c.terms.id))
    case Popped(session, offer) => Some(Offer(session, offer))
    case _ => None
  }

  predicate Destined(rows: map<Id, Store.CapabilityRow>, o: Offer) {
    o.capability in rows && rows[o.capability].session == o.session
  }

  predicate TokenHeld(t: nat, p: Point, at: map<Id, Place>, rows: map<Id, Store.CapabilityRow>) {
    OfferOf(p).Some? ==> HeldAt(at, OfferOf(p).value.capability, WithThread(t)) && Destined(rows, OfferOf(p).value)
  }

  ghost predicate TokensHeld(threads: map<nat, Point>, at: map<Id, Place>, rows: map<Id, Store.CapabilityRow>) {
    forall t <- threads :: TokenHeld(t, threads[t], at, rows)
  }

  predicate InLine(session: Id, id: Id, at: map<Id, Place>, rows: map<Id, Store.CapabilityRow>) {
    HeldAt(at, id, InQueue(session)) && Destined(rows, Offer(session, id))
  }

  ghost predicate QueueHeld(session: Id, queue: seq<Id>, at: map<Id, Place>, rows: map<Id, Store.CapabilityRow>) {
    && (forall i :: 0 <= i < |queue| ==> InLine(session, queue[i], at, rows))
    && (forall i, j :: 0 <= i < j < |queue| ==> queue[i] != queue[j])
  }

  ghost predicate QueuesHeld(offers: map<Id, seq<Id>>, at: map<Id, Place>, rows: map<Id, Store.CapabilityRow>) {
    forall session <- offers :: QueueHeld(session, offers[session], at, rows)
  }

  predicate WasHanded(i: nat, o: Offer, at: map<Id, Place>, rows: map<Id, Store.CapabilityRow>) {
    HeldAt(at, o.capability, Handed(i)) && Destined(rows, o)
  }

  ghost predicate OfferedHeld(offered: seq<Offer>, at: map<Id, Place>, rows: map<Id, Store.CapabilityRow>) {
    forall i :: 0 <= i < |offered| ==> WasHanded(i, offered[i], at, rows)
  }

  ghost predicate OffersOk(s: State) {
    && s.history.offerAt.Keys <= s.db.capabilities.Keys
    && TokensHeld(s.threads, s.history.offerAt, s.db.capabilities)
    && QueuesHeld(s.offers, s.history.offerAt, s.db.capabilities)
    && OfferedHeld(s.history.offered, s.history.offerAt, s.db.capabilities)
  }

  // ------------------------------------------------------------- quiet steps

  lemma StillDestined(rows: map<Id, Store.CapabilityRow>, rows': map<Id, Store.CapabilityRow>)
    requires RowsAlike(rows, rows')
    ensures forall o :: Destined(rows, o) ==> Destined(rows', o)
  {
  }

  lemma LineMoves(
    session: Id, queue: seq<Id>, at: map<Id, Place>, rows: map<Id, Store.CapabilityRow>,
    at': map<Id, Place>, rows': map<Id, Store.CapabilityRow>)
    requires QueueHeld(session, queue, at, rows)
    requires forall id :: InLine(session, id, at, rows) ==> InLine(session, id, at', rows')
    ensures QueueHeld(session, queue, at', rows')
  {
  }

  /** The new point of thread `t` may offer only what the old one could. */
  predicate NoOfferGained(s: State, t: nat, q: Point) {
    OfferOf(q).Some? ==> t in s.threads && OfferOf(s.threads[t]) == OfferOf(q)
  }

  ghost predicate Quiet(s: State, s': State, t: nat) {
    && s'.offers == s.offers && s'.history.offerAt == s.history.offerAt && s'.history.offered == s.history.offered
    && RowsAlike(s.db.capabilities, s'.db.capabilities)
    && (s'.threads == s.threads || s'.threads == s.threads - {t}
        || (t in s'.threads && s'.threads == s.threads[t := s'.threads[t]] && NoOfferGained(s, t, s'.threads[t])))
  }

  lemma QuietKeeps(s: State, s': State, t: nat)
    requires OffersOk(s) && Quiet(s, s', t)
    ensures OffersOk(s')
  {
    hide OfferOf;
    var at, rows, rows' := s.history.offerAt, s.db.capabilities, s'.db.capabilities;
    StillDestined(rows, rows');
    forall u <- s'.threads
      ensures TokenHeld(u, s'.threads[u], at, rows')
    {
      assert u in s.threads ==> TokenHeld(u, s.threads[u], at, rows);
    }
    assert QueuesHeld(s.offers, at, rows') by {
      forall session <- s.offers
        ensures QueueHeld(session, s.offers[session], at, rows')
      {
        assert QueueHeld(session, s.offers[session], at, rows);
        LineMoves(session, s.offers[session], at, rows, at, rows');
      }
    }
    OfferedStays(s.history.offered, at, rows, at, rows');
  }

  /** Nothing but a thread moves, to a point with no offer, or ends. */
  lemma Passes(s: State, s': State, t: nat, q: Option<Point>)
    requires OffersOk(s) && s'.offers == s.offers && s'.history == s.history && s'.db == s.db
    requires s'.threads == Continued(s.threads, t, q) && (q.Some? ==> OfferOf(q.value) == None)
    ensures OffersOk(s')
  {
    hide OffersOk, OfferOf;
    Unchanged(s);
    QuietKeeps(s, s', t);
  }

  // -------------------------------------------------------------- loud steps

  lemma OfferedStays(
    offered: seq<Offer>, at: map<Id, Place>, rows: map<Id, Store.CapabilityRow>,
    at': map<Id, Place>, rows': map<Id, Store.CapabilityRow>)
    requires OfferedHeld(offered, at, rows)
    requires forall o :: Destined(rows, o) ==> Destined(rows', o)
    requires forall id, i: nat :: HeldAt(at, id, Handed(i)) ==> HeldAt(at', id, Handed(i))
    ensures OfferedHeld(offered, at', rows')
  {
  }

  /** The right to offer `id` moves to `place` while thread `t` goes to `q`. */
  lemma TokensMove(
    threads: map<nat, Point>, at: map<Id, Place>, rows: map<Id, Store.CapabilityRow>,
    t: nat, q: Point, id: Id, place: Place, rows': map<Id, Store.CapabilityRow>)
    requires TokensHeld(threads, at, rows)
    requires id in at && at[id].WithThread? ==> at[id].t == t
    requires forall o :: Destined(rows, o) ==> Destined(rows', o)
    requires TokenHeld(t, q, at[id := place], rows')
    ensures TokensHeld(threads[t := q], at[id := place], rows')
  {
  }

  lemma QueuesStay(
    offers: map<Id, seq<Id>>, at: map<Id, Place>, rows: map<Id, Store.CapabilityRow>,
    id: Id, place: Place, rows': map<Id, Store.CapabilityRow>)
    requires QueuesHeld(offers, at, rows)
    requires id in at ==> !at[id].InQueue?
    requires forall o :: Destined(rows, o) ==> Destined(rows', o)
    ensures QueuesHeld(offers, at[id := place], rows')
  {
  }

  /** The row and its offer, or neither. */
  ghost predicate MintsOffer(s: State, s': State, t: nat, id: Id, a: Authorization, now: int) {
    && id !in s.db.capabilities && s'.db.capabilities == s.db.capabilities[id := NewRow(a, s.boot)]
    && s'.threads == s.threads[t := RowMinted(NewCapability(a, id, now), a.generator)]
    && s'.history.offerAt == s.history.offerAt[id := WithThread(t)]
  }

  ghost predicate MintsNothing(s: State, s': State, t: nat, a: Authorization) {
    && s'.db == s.db && s'.history == s.history
    && (s'.threads == s.threads - {t} || s'.threads == s.threads[t := Failing(a.subject.request)])
  }

  lemma MintsOrNot(env: Env, s: State, t: nat, id: Id, now: int, content: Ledger.EventContent, stored: bool)
    requires t in s.threads && s.threads[t].Minting?
    ensures var s', a := MintRow(env, s, t, id, now, content, stored), s.threads[t].authorization;
            && s'.offers == s.offers && s'.history.offered == s.history.offered
            && (MintsOffer(s, s', t, id, a, now) || MintsNothing(s, s', t, a))
  {
    hide Transact, NewCapability, NewRow, Failing, Store.InsertCapability;
    Inserts(s.db, id, NewRow(s.threads[t].authorization, s.boot));
  }

  lemma Inserts(db: Store.Tables, id: Id, row: Store.CapabilityRow)
    ensures var next := Store.InsertCapability(db, id, row);
            next.Some? ==> id !in db.capabilities && next.value == db.(capabilities := db.capabilities[id := row])
  {
  }

  lemma MintRowKeeps(env: Env, s: State, t: nat, id: Id, now: int, content: Ledger.EventContent, stored: bool)
    requires OffersOk(s)
    ensures OffersOk(MintRow(env, s, t, id, now, content, stored))
  {
    hide OffersOk, MintRow;
    var s' := MintRow(env, s, t, id, now, content, stored);
    if t in s.threads && s.threads[t].Minting? {
      var a := s.threads[t].authorization;
      MintsOrNot(env, s, t, id, now, content, stored);
      if MintsOffer(s, s', t, id, a, now) {
        RowInserted(s, s', t, id, NewRow(a, s.boot), RowMinted(NewCapability(a, id, now), a.generator));
      } else {
        Passes(s, s', t, Was(s', t));
      }
    } else {
      NothingMinted(env, s, t, id, now, content, stored);
    }
  }

  lemma NothingMinted(env: Env, s: State, t: nat, id: Id, now: int, content: Ledger.EventContent, stored: bool)
    requires !(t in s.threads && s.threads[t].Minting?)
    ensures MintRow(env, s, t, id, now, content, stored) == s
  {
    hide Transact, NewCapability, NewRow;
  }

  lemma RowInserted(s: State, s': State, t: nat, id: Id, row: Store.CapabilityRow, q: Point)
    requires OffersOk(s)
    requires id !in s.db.capabilities && s'.db.capabilities == s.db.capabilities[id := row]
    requires OfferOf(q) == Some(Offer(row.session, id)) && s'.threads == s.threads[t := q]
    requires s'.offers == s.offers && s'.history.offered == s.history.offered
    requires s'.history.offerAt == s.history.offerAt[id := WithThread(t)]
    ensures OffersOk(s')
  {
    hide OfferOf;
    var at, rows, rows' := s.history.offerAt, s.db.capabilities, s'.db.capabilities;
    TokensMove(s.threads, at, rows, t, q, id, WithThread(t), rows');
    QueuesStay(s.offers, at, rows, id, WithThread(t), rows');
    OfferedStays(s.history.offered, at, rows, s'.history.offerAt, rows');
  }

  lemma QueueOfferKeeps(s: State, t: nat)
    requires OffersOk(s)
    ensures OffersOk(QueueOffer(s, t))
  {
    hide OffersOk, QueueOf;
    if t in s.threads && s.threads[t].EntryMinted? {
      var c := s.threads[t].capability;
      Enqueued(s, QueueOffer(s, t), t, Offer(c.terms.binding.session, c.terms.id),
               Reporting(c.terms.subject.request, CapabilityIssued, true));
    }
  }

  lemma Enqueued(s: State, s': State, t: nat, o: Offer, q: Point)
    requires OffersOk(s)
    requires t in s.threads && OfferOf(s.threads[t]) == Some(o)
    requires OfferOf(q) == None && s'.threads == s.threads[t := q]
    requires s'.db == s.db && s'.history.offered == s.history.offered
    requires s'.offers == s.offers[o.session := QueueOf(s, o.session) + [o.capability]]
    requires s'.history.offerAt == s.history.offerAt[o.capability := InQueue(o.session)]
    ensures OffersOk(s')
  {
    hide OfferOf;
    var at, rows := s.history.offerAt, s.db.capabilities;
    assert TokenHeld(t, s.threads[t], at, rows);
    TokensMove(s.threads, at, rows, t, q, o.capability, InQueue(o.session), rows);
    QueuesStay(s.offers, at, rows, o.capability, InQueue(o.session), rows);
    OfferedStays(s.history.offered, at, rows, s'.history.offerAt, rows);
    assert QueueHeld(o.session, QueueOf(s, o.session) + [o.capability], s'.history.offerAt, rows) by {
      var queue := QueueOf(s, o.session);
      forall i | 0 <= i < |queue|
        ensures queue[i] != o.capability && InLine(o.session, queue[i], s'.history.offerAt, rows)
      {
        assert QueueHeld(o.session, queue, at, rows);
        assert InLine(o.session, queue[i], at, rows);
      }
    }
  }

  lemma PopOfferKeeps(s: State, t: nat)
    requires OffersOk(s)
    ensures OffersOk(PopOffer(s, t))
  {
    hide OffersOk;
    if t in s.threads && s.threads[t].Polling? {
      var session := s.threads[t].session;
      var s' := PopOffer(s, t);
      if QueueOf(s, session) == [] {
        EmptyQueue(s, s', t, session);
      } else {
        Dequeued(s, s', t, session, Popped(session, QueueOf(s, session)[0]));
      }
    }
  }

  lemma EmptyQueue(s: State, s': State, t: nat, session: Id)
    requires OffersOk(s)
    requires s'.db == s.db && s'.history == s.history && s'.threads == s.threads - {t}
    requires s'.offers == s.offers[session := []]
    ensures OffersOk(s')
  {
  }

  lemma Dequeued(s: State, s': State, t: nat, session: Id, q: Point)
    requires OffersOk(s)
    requires QueueOf(s, session) != []
    requires OfferOf(q) == Some(Offer(session, QueueOf(s, session)[0])) && s'.threads == s.threads[t := q]
    requires s'.db == s.db && s'.history.offered == s.history.offered
    requires s'.offers == s.offers[session := QueueOf(s, session)[1..]]
    requires s'.history.offerAt == s.history.offerAt[QueueOf(s, session)[0] := WithThread(t)]
    ensures OffersOk(s')
  {
    hide OfferOf;
    var at, rows, queue := s.history.offerAt, s.db.capabilities, s.offers[session];
    var id := queue[0];
    assert QueueHeld(session, queue, at, rows) && InLine(session, id, at, rows);
    TokensMove(s.threads, at, rows, t, q, id, WithThread(t), rows);
    OfferedStays(s.history.offered, at, rows, s'.history.offerAt, rows);
    forall other <- s'.offers
      ensures QueueHeld(other, s'.offers[other], s'.history.offerAt, rows)
    {
      assert QueueHeld(other, s.offers[other], at, rows);
      OthersInLine(other, s'.offers[other], id, WithThread(t), at, rows);
    }
  }

  lemma OthersInLine(
    session: Id, queue: seq<Id>, id: Id, place: Place, at: map<Id, Place>, rows: map<Id, Store.CapabilityRow>)
    requires QueueHeld(session, queue, at, rows) && id !in queue
    ensures QueueHeld(session, queue, at[id := place], rows)
  {
  }

  lemma InspectOfferKeeps(s: State, t: nat, now: int, recipeUsable: bool)
    requires OffersOk(s)
    ensures OffersOk(InspectOffer(s, t, now, recipeUsable))
  {
    hide OffersOk, Offerable, PrepareOAuth;
    if t in s.threads && s.threads[t].Popped? {
      var p := s.threads[t];
      var s' := InspectOffer(s, t, now, recipeUsable);
      if Offerable(s, p.offer, now) && recipeUsable {
        HandedOut(s, s', t, Offer(p.session, p.offer));
      } else if Offerable(s, p.offer, now) {
        Passes(s, s', t, None);
      } else {
        Passes(s, s', t, Some(Polling(p.session)));
      }
    }
  }

  lemma TokensLeft(
    threads: map<nat, Point>, at: map<Id, Place>, rows: map<Id, Store.CapabilityRow>, t: nat, id: Id, place: Place)
    requires TokensHeld(threads, at, rows)
    requires id in at && at[id].WithThread? ==> at[id].t == t
    ensures TokensHeld(threads - {t}, at[id := place], rows)
  {
    forall u | u in threads - {t}
      ensures TokenHeld(u, threads[u], at[id := place], rows)
    {
      assert TokenHeld(u, threads[u], at, rows);
    }
  }

  lemma HandedOut(s: State, s': State, t: nat, o: Offer)
    requires OffersOk(s)
    requires t in s.threads && OfferOf(s.threads[t]) == Some(o)
    requires s'.threads == s.threads - {t}
    requires s'.db == s.db && s'.offers == s.offers && s'.history.offered == s.history.offered + [o]
    requires s'.history.offerAt == s.history.offerAt[o.capability := Handed(|s.history.offered|)]
    ensures OffersOk(s')
  {
    hide OfferOf;
    var at, rows, n := s.history.offerAt, s.db.capabilities, |s.history.offered|;
    assert TokenHeld(t, s.threads[t], at, rows);
    TokensLeft(s.threads, at, rows, t, o.capability, Handed(n));
    QueuesStay(s.offers, at, rows, o.capability, Handed(n), rows);
    OfferedStays(s.history.offered, at, rows, s'.history.offerAt, rows);
  }

  lemma RestartKeeps(s: State, signer: Ledger.Signer, policyHash: Bytes, hashRead: bool)
    requires OffersOk(s)
    ensures OffersOk(Restart(s, signer, policyHash, hashRead))
  {
  }

  // --------------------------------------------------------------- all steps

  /** The steps that write none of the parts this invariant speaks of. */
  predicate Idle(step: Step) {
    match step
    case Issue(_, DoMintRow(_, _, _, _)) => false
    case Issue(_, DoQueueOffer) => false
    case Poll(_, DoPopOffer) => false
    case Poll(_, DoInspectOffer(_, _)) => false
    case World(DoRestart(_, _, _)) => false
    case _ => true
  }

  lemma IdleWrites(step: Step)
    requires Idle(step)
    ensures !IsRestart(step) && Written(step) !! {Offers, OfferPlaces, Offered, RowSet}
  {
  }

  lemma OfferCarried(s: State, step: Step, t: nat, q: Point)
    requires Idle(step) && Leads(s, step, Was(s, t), q)
    ensures NoOfferGained(s, t, q)
  {
  }

  lemma IdleKeeps(env: Env, s: State, step: Step)
    requires OffersOk(s) && Idle(step)
    ensures OffersOk(Next(env, s, step))
  {
    hide Next, Leads, NoOfferGained, OffersOk, Idle, Written;
    var s' := Next(env, s, step);
    IdleWrites(step);
    StepFrame(env, s, step);
    StepMoves(env, s, step);
    match Actor(step)
    case None => QuietKeeps(s, s', 0);
    case Some(t) =>
      if s'.threads != s.threads && s'.threads != s.threads - {t} {
        OfferCarried(s, step, t, s'.threads[t]);
      }
      QuietKeeps(s, s', t);
  }

  lemma StepKeeps(env: Env, s: State, step: Step)
    requires OffersOk(s)
    ensures OffersOk(Next(env, s, step))
  {
    hide OffersOk, MintRow, QueueOffer, PopOffer, InspectOffer, Restart;
    match step
    case Issue(t, DoMintRow(id, now, content, stored)) => MintRowKeeps(env, s, t, id, now, content, stored);
    case Issue(t, DoQueueOffer) => QueueOfferKeeps(s, t);
    case Poll(t, DoPopOffer) => PopOfferKeeps(s, t);
    case Poll(t, DoInspectOffer(now, recipeUsable)) => InspectOfferKeeps(s, t, now, recipeUsable);
    case World(DoRestart(signer, policyHash, hashRead)) => RestartKeeps(s, signer, policyHash, hashRead);
    case _ => IdleKeeps(env, s, step);
  }

  lemma {:induction false} RunKeeps(env: Env, s: State, steps: seq<Step>)
    requires OffersOk(s)
    ensures OffersOk(Run(env, s, steps))
    decreases |steps|
  {
    hide Next, OffersOk;
    if steps != [] {
      StepKeeps(env, s, steps[0]);
      RunKeeps(env, Next(env, s, steps[0]), steps[1..]);
    }
  }

  /** No capability was offered twice, and each only to its own session. */
  ghost predicate OfferedOnce(offered: seq<Offer>, rows: map<Id, Store.CapabilityRow>) {
    && (forall i :: 0 <= i < |offered| ==> Destined(rows, offered[i]))
    && (forall i, j :: 0 <= i < j < |offered| ==> offered[i].capability != offered[j].capability)
  }

  /** From an empty store, in every interleaving and across restarts: a
      capability is handed out at most once, and only to the session it was
      minted for. */
  lemma OneOfferToItsSession(env: Env, signer: Ledger.Signer, policyHash: Bytes, steps: seq<Step>)
    ensures var after := Run(env, Initial(signer, policyHash), steps);
            OfferedOnce(after.history.offered, after.db.capabilities)
  {
    hide Run;
    RunKeeps(env, Initial(signer, policyHash), steps);
    var after := Run(env, Initial(signer, policyHash), steps);
    forall i | 0 <= i < |after.history.offered|
      ensures WasHanded(i, after.history.offered[i], after.history.offerAt, after.db.capabilities)
    {
    }
  }
}
