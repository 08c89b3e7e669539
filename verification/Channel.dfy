/** The encrypted record layer, over a network that may drop, repeat, reorder,
    reflect and invent frames. The cipher is ideal: a frame opens under exactly
    the key and nonce it was sealed with. */
module Channel {
  import opened ByteStrings
  import opened Wrappers

  datatype Frame = Sealed(key: Bytes, nonce: Bytes, plaintext: Bytes) | Junk(bytes: Bytes)

  datatype CryptoError = SessionExpired | EncryptionFailed | DecryptionFailed

  function FormatNonce(counter: nat): Bytes {
    [0, 0, 0, 0] + BigEndian(counter, 8)
  }

  lemma NonceInjective(i: nat, j: nat)
    requires i < TWO_64 && j < TWO_64
    ensures FormatNonce(i) == FormatNonce(j) <==> i == j
  {
    if FormatNonce(i) == FormatNonce(j) {
      Pow256Values();
      SplitEqual([0, 0, 0, 0], BigEndian(i, 8), [0, 0, 0, 0], BigEndian(j, 8));
      BigEndianInjective(i, j, 8);
    }
  }

  /** One end of the channel. */
  datatype End = End(txKey: Bytes, rxKey: Bytes, txNonce: nat, rxNonce: nat)

  function CheckedAdd(n: nat): Option<nat> {
    if n + 1 < TWO_64 then Some(n + 1) else None
  }

  /** `cipherOk`: the cipher accepts the plaintext; when it does not, the nonce
      has already been counted. */
  function Encrypting(e: End, plaintext: Bytes, cipherOk: bool): (End, Result<Frame, CryptoError>) {
    match CheckedAdd(e.txNonce)
    case None => (e, Failure(SessionExpired))
    case Some(next) =>
      (e.(txNonce := next),
       if cipherOk then Success(Sealed(e.txKey, FormatNonce(e.txNonce), plaintext)) else Failure(EncryptionFailed))
  }

  predicate Opens(e: End, frame: Frame) {
    frame.Sealed? && frame.key == e.rxKey && frame.nonce == FormatNonce(e.rxNonce)
  }

  function Decrypting(e: End, frame: Frame): (End, Result<Bytes, CryptoError>) {
    if !Opens(e, frame) then (e, Failure(DecryptionFailed))
    else match CheckedAdd(e.rxNonce)
      case None => (e, Failure(SessionExpired))
      case Some(next) => (e.(rxNonce := next), Success(frame.plaintext))
  }

  class SecureChannel {
    const txKey: Bytes
    const rxKey: Bytes
    var txNonce: nat
    var rxNonce: nat

    /** `clientTx` and `clientRx` are the two halves of the derived key material. */
    constructor Client(clientTx: Bytes, clientRx: Bytes)
      ensures View() == End(clientTx, clientRx, 0, 0)
    {
      txKey, rxKey, txNonce, rxNonce := clientTx, clientRx, 0, 0;
    }

    constructor Server(clientTx: Bytes, clientRx: Bytes)
      ensures View() == End(clientRx, clientTx, 0, 0)
    {
      txKey, rxKey, txNonce, rxNonce := clientRx, clientTx, 0, 0;
    }

    function View(): End
      reads this
    {
      End(txKey, rxKey, txNonce, rxNonce)
    }

    method Encrypt(plaintext: Bytes, cipherOk: bool) returns (r: Result<Frame, CryptoError>)
      modifies this`txNonce
      ensures (View(), r) == Encrypting(old(View()), plaintext, cipherOk)
    {
      var nonce := FormatNonce(txNonce);
      if txNonce + 1 >= TWO_64 {
        return Failure(SessionExpired);
      }
      txNonce := txNonce + 1;
      if !cipherOk {
        return Failure(EncryptionFailed);
      }
      return Success(Sealed(txKey, nonce, plaintext));
    }

    method Decrypt(frame: Frame) returns (r: Result<Bytes, CryptoError>)
      modifies this`rxNonce
      ensures (View(), r) == Decrypting(old(View()), frame)
      ensures r.Failure? ==> View() == old(View())
    {
      if !frame.Sealed? || frame.key != rxKey || frame.nonce != FormatNonce(rxNonce) {
        return Failure(DecryptionFailed);
      }
      if rxNonce + 1 >= TWO_64 {
        return Failure(SessionExpired);
      }
      rxNonce := rxNonce + 1;
      return Success(frame.plaintext);
    }
  }

  // ---------------------------------------------------------------- network

  datatype Side = Left | Right

  /** `attempts`: what became of each counter value of a side, the plaintext or
      nothing; `accepted`: what the other side took; `wire`: all frames made. */
  datatype Link = Link(end: End, attempts: seq<Option<Bytes>>, accepted: seq<Bytes>)

  datatype Net = Net(left: Link, right: Link, wire: set<Frame>)

  datatype Event =
    | Send(side: Side, plaintext: Bytes, cipherOk: bool)
    | Deliver(side: Side, frame: Frame)

  function Sent(l: Link, plaintext: Bytes, cipherOk: bool): (Link, set<Frame>) {
    var (end, r) := Encrypting(l.end, plaintext, cipherOk);
    match r
    case Success(frame) => (l.(end := end, attempts := l.attempts + [Some(plaintext)]), {frame})
    case Failure(SessionExpired) => (l, {})
    case Failure(_) => (l.(end := end, attempts := l.attempts + [None]), {})
  }

  function Received(l: Link, frame: Frame): Link {
    var (end, r) := Decrypting(l.end, frame);
    match r
    case Success(plaintext) => l.(end := end, accepted := l.accepted + [plaintext])
    case Failure(_) => l
  }

  /** The network can show an end any frame, except one sealed under a session
      key that nobody sealed. */
  predicate Deliverable(net: Net, frame: Frame) {
    frame.Sealed? && (frame.key == net.left.end.txKey || frame.key == net.right.end.txKey) ==> frame in net.wire
  }

  function Next(net: Net, event: Event): Net {
    match event
    case Send(Left, plaintext, cipherOk) =>
      var (l, made) := Sent(net.left, plaintext, cipherOk);
      net.(left := l, wire := net.wire + made)
    case Send(Right, plaintext, cipherOk) =>
      var (r, made) := Sent(net.right, plaintext, cipherOk);
      net.(right := r, wire := net.wire + made)
    case Deliver(side, frame) =>
      if !Deliverable(net, frame) then net
      else match side
        case Left => net.(left := Received(net.left, frame))
        case Right => net.(right := Received(net.right, frame))
  }

  function Run(net: Net, events: seq<Event>): Net
    decreases |events|
  {
    if events == [] then net else Run(Next(net, events[0]), events[1..])
  }

  function Fresh(clientTx: Bytes, clientRx: Bytes): Net {
    Net(Link(End(clientTx, clientRx, 0, 0), [], []), Link(End(clientRx, clientTx, 0, 0), [], []), {})
  }

  // -------------------------------------------------------------- invariant

  predicate MadeBy(l: Link, frame: Frame, i: nat) {
    i < |l.attempts| && l.attempts[i].Some? && frame == Sealed(l.end.txKey, FormatNonce(i), l.attempts[i].value)
  }

  /** Every counter value below the next is accounted for, and none reaches the
      last, which is never used. */
  ghost predicate Counted(l: Link) {
    |l.attempts| == l.end.txNonce < TWO_64
  }

  ghost predicate FramesMade(net: Net) {
    forall f :: f in net.wire ==>
      (exists i: nat :: MadeBy(net.left, f, i)) || (exists i: nat :: MadeBy(net.right, f, i))
  }

  /** The receiver has taken exactly the first attempts of the sender. */
  ghost predicate InStep(sender: Link, receiver: Link) {
    && |receiver.accepted| == receiver.end.rxNonce <= |sender.attempts|
    && forall i :: 0 <= i < |receiver.accepted| ==> sender.attempts[i] == Some(receiver.accepted[i])
  }

  ghost predicate NetOk(net: Net) {
    && net.left.end.txKey == net.right.end.rxKey && net.left.end.rxKey == net.right.end.txKey
    && net.left.end.txKey != net.right.end.txKey
    && Counted(net.left) && Counted(net.right)
    && FramesMade(net)
    && InStep(net.left, net.right) && InStep(net.right, net.left)
  }

  lemma SendKeeps(l: Link, other: Link, wire: set<Frame>, plaintext: Bytes, cipherOk: bool)
    requires Counted(l) && InStep(l, other)
    ensures var (l', made) := Sent(l, plaintext, cipherOk);
            && Counted(l') && InStep(l', other) && l'.accepted == l.accepted
            && l'.end == l.end.(txNonce := l'.end.txNonce)
            && (forall f, i: nat :: MadeBy(l, f, i) ==> MadeBy(l', f, i))
            && (forall f :: f in made ==> MadeBy(l', f, |l.attempts|))
  {
  }

  lemma StillMade(net: Net, net': Net)
    requires FramesMade(net)
    requires forall f, i: nat :: MadeBy(net.left, f, i) ==> MadeBy(net'.left, f, i)
    requires forall f, i: nat :: MadeBy(net.right, f, i) ==> MadeBy(net'.right, f, i)
    requires forall f :: f in net'.wire && f !in net.wire ==>
               (exists i: nat :: MadeBy(net'.left, f, i)) || (exists i: nat :: MadeBy(net'.right, f, i))
    ensures FramesMade(net')
  {
  }

  /** A frame that opens was made by the peer for this very counter value. */
  lemma OpensOnlyTheNext(sender: Link, receiver: Link, frame: Frame, i: nat)
    requires Counted(sender) && InStep(sender, receiver)
    requires Opens(receiver.end, frame) && MadeBy(sender, frame, i)
    ensures InStep(sender, Received(receiver, frame))
    ensures i == receiver.end.rxNonce
  {
    hide FormatNonce;
    NonceInjective(i, receiver.end.rxNonce);
  }

  lemma DeliverKeeps(net: Net, side: Side, frame: Frame)
    requires NetOk(net)
    ensures NetOk(Next(net, Deliver(side, frame)))
  {
    hide FormatNonce;
    var sender := if side == Right then net.left else net.right;
    var receiver := if side == Right then net.right else net.left;
    if Deliverable(net, frame) && Opens(receiver.end, frame) {
      if i: nat :| MadeBy(sender, frame, i) {
        OpensOnlyTheNext(sender, receiver, frame, i);
      }
      StillMade(net, Next(net, Deliver(side, frame)));
    }
  }

  lemma StepKeeps(net: Net, event: Event)
    requires NetOk(net)
    ensures NetOk(Next(net, event))
  {
    hide FormatNonce, MadeBy;
    match event
    case Send(Left, plaintext, cipherOk) =>
      SendKeeps(net.left, net.right, net.wire, plaintext, cipherOk);
      StillMade(net, Next(net, event));
    case Send(Right, plaintext, cipherOk) =>
      SendKeeps(net.right, net.left, net.wire, plaintext, cipherOk);
      StillMade(net, Next(net, event));
    case Deliver(side, frame) => DeliverKeeps(net, side, frame);
  }

  lemma {:induction false} RunKeeps(net: Net, events: seq<Event>)
    requires NetOk(net)
    ensures NetOk(Run(net, events))
    decreases |events|
  {
    if events != [] {
      StepKeeps(net, events[0]);
      RunKeeps(Next(net, events[0]), events[1..]);
    }
  }

  // ---------------------------------------------------------------- results

  lemma FreshIsOk(clientTx: Bytes, clientRx: Bytes)
    requires clientTx != clientRx
    ensures NetOk(Fresh(clientTx, clientRx))
  {
  }

  /** The plaintexts a side sealed, in order. */
  function Plaintexts(attempts: seq<Option<Bytes>>): seq<Bytes> {
    if attempts == [] then []
    else (if attempts[0].Some? then [attempts[0].value] else []) + Plaintexts(attempts[1..])
  }

  lemma {:induction false} StepwisePrefix(attempts: seq<Option<Bytes>>, accepted: seq<Bytes>)
    requires |accepted| <= |attempts| && forall i :: 0 <= i < |accepted| ==> attempts[i] == Some(accepted[i])
    ensures accepted <= Plaintexts(attempts)
  {
    if accepted != [] {
      StepwisePrefix(attempts[1..], accepted[1..]);
      assert accepted == [accepted[0]] + accepted[1..];
      assert Plaintexts(attempts) == [accepted[0]] + Plaintexts(attempts[1..]);
    }
  }

  /** With distinct directional keys, whatever the network does, what each side
      accepts is a prefix of what the other sealed. */
  lemma AcceptedIsPrefixOfSent(clientTx: Bytes, clientRx: Bytes, events: seq<Event>)
    requires clientTx != clientRx
    ensures var net := Run(Fresh(clientTx, clientRx), events);
            && net.right.accepted <= Plaintexts(net.left.attempts)
            && net.left.accepted <= Plaintexts(net.right.attempts)
  {
    hide Run;
    FreshIsOk(clientTx, clientRx);
    RunKeeps(Fresh(clientTx, clientRx), events);
    var net := Run(Fresh(clientTx, clientRx), events);
    StepwisePrefix(net.left.attempts, net.right.accepted);
    StepwisePrefix(net.right.attempts, net.left.accepted);
  }

  /** And no (key, nonce) pair is used twice: not by two encryptions of one side,
      not by both sides, not by two different frames. */
  lemma NoNonceReuse(clientTx: Bytes, clientRx: Bytes, events: seq<Event>)
    requires clientTx != clientRx
    ensures var net := Run(Fresh(clientTx, clientRx), events);
            && net.left.end.txKey != net.right.end.txKey
            && (forall i, j :: 0 <= i < j < |net.left.attempts| ==> FormatNonce(i) != FormatNonce(j))
            && (forall i, j :: 0 <= i < j < |net.right.attempts| ==> FormatNonce(i) != FormatNonce(j))
            && (forall f, g ::
                  f in net.wire && g in net.wire && f.Sealed? && g.Sealed? && f.key == g.key && f.nonce == g.nonce
                  ==> f == g)
  {
    hide Run, FormatNonce;
    FreshIsOk(clientTx, clientRx);
    RunKeeps(Fresh(clientTx, clientRx), events);
    var net := Run(Fresh(clientTx, clientRx), events);
    forall i: nat, j: nat | i < TWO_64 && j < TWO_64 && i != j
      ensures FormatNonce(i) != FormatNonce(j)
    {
      NonceInjective(i, j);
    }
    forall f, g | f in net.wire && g in net.wire && f.Sealed? && g.Sealed? && f.key == g.key && f.nonce == g.nonce
      ensures f == g
    {
      SameSlot(net, f, g);
    }
  }

  lemma SameSlot(net: Net, f: Frame, g: Frame)
    requires NetOk(net) && f in net.wire && g in net.wire
    requires f.Sealed? && g.Sealed? && f.key == g.key && f.nonce == g.nonce
    ensures f == g
  {
    hide FormatNonce;
    var l := if f.key == net.left.end.txKey then net.left else net.right;
    var i: nat :| MadeBy(l, f, i);
    var j: nat :| MadeBy(l, g, j);
    NonceInjective(i, j);
  }

  /** The condition on the keys is exact. With equal keys the first frames of
      the two sides share key and nonce, and a side accepts its own frame back. */
  lemma EqualKeysReuseAndReflect(key: Bytes, p: Bytes, q: Bytes)
    ensures var both := Run(Fresh(key, key), [Send(Left, p, true), Send(Right, q, true)]);
            Sealed(key, FormatNonce(0), p) in both.wire && Sealed(key, FormatNonce(0), q) in both.wire
    ensures var reflected := Run(Fresh(key, key), [Send(Left, p, true), Deliver(Left, Sealed(key, FormatNonce(0), p))]);
            reflected.left.accepted == [p] && reflected.right.attempts == []
  {
    hide FormatNonce;
    var a, b, c := Send(Left, p, true), Send(Right, q, true), Deliver(Left, Sealed(key, FormatNonce(0), p));
    var one := Next(Fresh(key, key), a);
    assert [a, b][1..] == [b] && [a, c][1..] == [c] && [b][1..] == [] && [c][1..] == [];
    assert Run(one, [b]) == Next(one, b) && Run(one, [c]) == Next(one, c);
  }

  predicate Waiting(sender: Link, receiver: Link) {
    receiver.end.rxNonce < |sender.attempts| && sender.attempts[receiver.end.rxNonce].Some?
  }

  ghost predicate OnWire(l: Link, wire: set<Frame>) {
    forall i :: 0 <= i < |l.attempts| && l.attempts[i].Some? ==>
                  Sealed(l.end.txKey, FormatNonce(i), l.attempts[i].value) in wire
  }

  ghost predicate AllOnWire(net: Net) {
    OnWire(net.left, net.wire) && OnWire(net.right, net.wire)
  }

  lemma SentOnWire(l: Link, wire: set<Frame>, plaintext: Bytes, cipherOk: bool)
    requires Counted(l) && OnWire(l, wire)
    ensures OnWire(Sent(l, plaintext, cipherOk).0, wire + Sent(l, plaintext, cipherOk).1)
  {
  }

  lemma MoreWire(l: Link, l': Link, wire: set<Frame>, wire': set<Frame>)
    requires OnWire(l, wire) && wire <= wire'
    requires l'.attempts == l.attempts && l'.end.txKey == l.end.txKey
    ensures OnWire(l', wire')
  {
  }

  lemma WireStep(net: Net, event: Event)
    requires NetOk(net) && AllOnWire(net)
    ensures AllOnWire(Next(net, event))
  {
    hide FormatNonce, OnWire, Sent;
    var next := Next(net, event);
    match event
    case Send(Left, plaintext, cipherOk) =>
      SentOnWire(net.left, net.wire, plaintext, cipherOk);
      MoreWire(net.right, next.right, net.wire, next.wire);
    case Send(Right, plaintext, cipherOk) =>
      SentOnWire(net.right, net.wire, plaintext, cipherOk);
      MoreWire(net.left, next.left, net.wire, next.wire);
    case Deliver(side, frame) =>
      MoreWire(net.left, next.left, net.wire, next.wire);
      MoreWire(net.right, next.right, net.wire, next.wire);
  }

  /** Progress, exactly: some frame the network can show is accepted if and only
      if the peer sealed something under the awaited counter value. */
  lemma ProgressIffSealed(net: Net)
    requires NetOk(net) && AllOnWire(net)
    ensures (exists f :: Deliverable(net, f) && Received(net.right, f) != net.right) <==> Waiting(net.left, net.right)
  {
    hide FormatNonce;
    if Waiting(net.left, net.right) {
      var n := net.right.end.rxNonce;
      var f := Sealed(net.left.end.txKey, FormatNonce(n), net.left.attempts[n].value);
      assert Deliverable(net, f) && Received(net.right, f) != net.right;
    }
    forall f | Deliverable(net, f) && Received(net.right, f) != net.right
      ensures Waiting(net.left, net.right)
    {
      var i: nat :| MadeBy(net.left, f, i);
      OpensOnlyTheNext(net.left, net.right, f, i);
    }
  }

  /** A failed encryption uses its nonce up: if the frame a receiver waits for
      was never made, it accepts nothing ever again. */
  lemma {:induction false} LostNonceStopsTheReceiver(net: Net, events: seq<Event>)
    requires NetOk(net) && AllOnWire(net)
    requires net.right.end.rxNonce < |net.left.attempts| && net.left.attempts[net.right.end.rxNonce] == None
    ensures Run(net, events).right.accepted == net.right.accepted
    decreases |events|
  {
    hide FormatNonce, NetOk, AllOnWire, Sent;
    if events != [] {
      var next := Next(net, events[0]);
      StepKeeps(net, events[0]);
      WireStep(net, events[0]);
      StuckStep(net, events[0]);
      LostNonceStopsTheReceiver(next, events[1..]);
    }
  }

  lemma StuckStep(net: Net, event: Event)
    requires NetOk(net) && AllOnWire(net)
    requires net.right.end.rxNonce < |net.left.attempts| && net.left.attempts[net.right.end.rxNonce] == None
    ensures var next := Next(net, event);
            && next.right.accepted == net.right.accepted && next.right.end.rxNonce == net.right.end.rxNonce
            && net.left.attempts <= next.left.attempts
  {
    hide FormatNonce, AllOnWire;
    ProgressIffSealed(net);
  }
}
