/** The writer's side of the audit log: the in-memory cursor and the stored
    table it has to advance with. */
module Ledger {
  import opened ByteStrings
  import opened Wrappers
  import opened Audit

  /** The keys a broker process is opened with. */
  datatype Signer = Signer(version: nat, key: Bytes, keyId: Bytes, seed: Bytes)

  /** What a handler asks to be recorded; `prohibited` is the verdict of the
      payload scan, which refuses secret-bearing key names. */
  datatype EventContent = EventContent(
    eventId: Bytes, eventType: Bytes, actorType: Bytes, actorId: Option<Bytes>,
    eventJson: Bytes, createdAt: Bytes, prohibited: bool)

  /** `recorded` is set once this process has stored a record of its own. */
  datatype Log = Log(
    signer: Signer,
    nextSequence: nat,
    latestHash: Bytes,
    recorded: bool,
    events: seq<AuditEvent>,
    checkpoints: seq<AuditCheckpoint>)

  function CreateEvent(crypto: Crypto, l: Log, c: EventContent): Option<AuditEvent> {
    var draft := AuditEvent(l.nextSequence, c.eventId, c.eventType, c.actorType, c.actorId, c.eventJson,
                            l.signer.version, l.latestHash, [], c.createdAt);
    if c.prohibited then None
    else match ComputeEventHash(crypto, l.signer.key, draft)
      case None => None
      case Some(hash) => Some(draft.(eventHash := hash))
  }

  /** The insert violates the primary key or the unique event id. */
  predicate Duplicate(events: seq<AuditEvent>, e: AuditEvent) {
    exists i :: 0 <= i < |events| && (events[i].sequence == e.sequence || events[i].eventId == e.eventId)
  }

  /** One audited write. `stored` is false when the surrounding transaction
      fails for a reason of its own; then nothing moves. */
  function Append(crypto: Crypto, l: Log, c: EventContent, stored: bool): (result: (Log, bool)) {
    match CreateEvent(crypto, l, c)
    case None => (l, false)
    case Some(e) =>
      if !stored || Duplicate(l.events, e) then (l, false)
      else
        (l.(nextSequence := l.nextSequence + 1, latestHash := e.eventHash, recorded := true, events := l.events + [e]),
         true)
  }

  /** The signing half of `write_audit_checkpoint`, under the cursor lock. */
  function SignCheckpoint(crypto: Crypto, l: Log, createdAt: Bytes, stored: bool): Log
  {
    var draft := AuditCheckpoint(if l.nextSequence == 0 then 0 else l.nextSequence - 1, l.latestHash,
                                 l.signer.version, l.signer.keyId, [], createdAt);
    var c := draft.(signature := crypto.sign(l.signer.seed, CheckpointMessage(crypto, draft)));
    if !stored || exists i :: 0 <= i < |l.checkpoints| && l.checkpoints[i].sequence == c.sequence then l
    else l.(checkpoints := l.checkpoints + [c])
  }

  /** Index of the row with the largest sequence number. */
  function LatestRow(events: seq<AuditEvent>): (k: nat)
    requires events != []
    ensures k < |events|
    ensures forall i :: 0 <= i < |events| ==> events[i].sequence <= events[k].sequence
  {
    if |events| == 1 then 0
    else
      var k := LatestRow(events[..|events| - 1]);
      if events[|events| - 1].sequence > events[k].sequence then |events| - 1 else k
  }

  /** Opening the broker reads the cursor back from the table. The read of the
      latest hash swallows its error, so `hashRead == false` yields genesis. */
  function Reopen(l: Log, signer: Signer, hashRead: bool): Log {
    var sequence := if l.events == [] then 0 else l.events[LatestRow(l.events)].sequence;
    var hash := if !hashRead || l.events == [] then Genesis() else l.events[LatestRow(l.events)].eventHash;
    l.(signer := signer, nextSequence := sequence + 1, latestHash := hash, recorded := false)
  }

  /** The broker's writing half: a cursor that moves only once the row is in. */
  class AuditWriter {
    const signer: Signer
    var nextSequence: nat
    var latestHash: Bytes
    var recorded: bool
    var events: seq<AuditEvent>
    var checkpoints: seq<AuditCheckpoint>

    /** Opens an existing table and reads the cursor back from it. */
    constructor (l: Log, signer: Signer, hashRead: bool)
      ensures View() == Reopen(l, signer, hashRead)
    {
      var sequence, hash := 0, Genesis();
      if l.events != [] {
        var latest := FindLatest(l.events);
        sequence := l.events[latest].sequence;
        hash := if hashRead then l.events[latest].eventHash else Genesis();
      }
      this.signer, nextSequence, latestHash, recorded := signer, sequence + 1, hash, false;
      events, checkpoints := l.events, l.checkpoints;
    }

    function View(): Log
      reads this
    {
      Log(signer, nextSequence, latestHash, recorded, events, checkpoints)
    }

    method RecordAuditEvent(crypto: Crypto, content: EventContent, stored: bool) returns (done: bool)
      modifies this
      ensures (View(), done) == Append(crypto, old(View()), content, stored)
    {
      var event := CreateEvent(crypto, View(), content);
      if event == None || !stored || Duplicate(events, event.value) {
        return false;
      }
      events := events + [event.value];
      nextSequence := nextSequence + 1;
      latestHash := event.value.eventHash;
      recorded := true;
      return true;
    }

    method WriteAuditCheckpoint(crypto: Crypto, createdAt: Bytes, stored: bool)
      modifies this
      ensures View() == SignCheckpoint(crypto, old(View()), createdAt, stored)
    {
      var c := AuditCheckpoint(
        if nextSequence == 0 then 0 else nextSequence - 1, latestHash, signer.version, signer.keyId, [], createdAt);
      var signature := crypto.sign(signer.seed, CheckpointMessage(crypto, c));
      c := c.(signature := signature);
      for i := 0 to |checkpoints|
        invariant forall j :: 0 <= j < i ==> checkpoints[j].sequence != c.sequence
        invariant View() == old(View())
      {
        if checkpoints[i].sequence == c.sequence {
          return;
        }
      }
      if stored {
        checkpoints := checkpoints + [c];
      }
    }
  }

  /** `ORDER BY sequence DESC LIMIT 1`. */
  method FindLatest(events: seq<AuditEvent>) returns (k: nat)
    requires events != []
    ensures k == LatestRow(events)
  {
    k := 0;
    for i := 1 to |events|
      invariant k < i && k == LatestRow(events[..i])
    {
      assert events[..i + 1][..i] == events[..i];
      if events[i].sequence > events[k].sequence {
        k := i;
      }
    }
    assert events[..|events|] == events;
  }

  datatype LogOp =
    | Record(content: EventContent, stored: bool)
    | Checkpoint(createdAt: Bytes, stored: bool)
    | Open(signer: Signer, hashRead: bool)

  function Apply(crypto: Crypto, l: Log, op: LogOp): Log {
    match op
    case Record(content, stored) => Append(crypto, l, content, stored).0
    case Checkpoint(createdAt, stored) => if l.recorded then SignCheckpoint(crypto, l, createdAt, stored) else l
    case Open(signer, hashRead) => Reopen(l, signer, hashRead)
  }

  function Run(crypto: Crypto, l: Log, ops: seq<LogOp>): Log
    decreases |ops|
  {
    if ops == [] then l else Run(crypto, Apply(crypto, l, ops[0]), ops[1..])
  }

  /** The cursor names the next free sequence number and the last hash. */
  ghost predicate CursorOk(l: Log) {
    l.nextSequence == |l.events| + 1 && l.latestHash == PreviousHash(l.events, |l.events|)
  }

  /** The verifying side knows every key the signer writes with. */
  ghost predicate Covers(crypto: Crypto, keys: map<nat, Bytes>, signers: map<Bytes, Bytes>, s: Signer) {
    && s.version in keys && keys[s.version] == s.key
    && s.keyId in signers && signers[s.keyId] == crypto.publicKey(s.seed)
  }

  /** What is stored verifies, and so will what these keys add to it. */
  ghost predicate StoredOk(crypto: Crypto, keys: map<nat, Bytes>, signers: map<Bytes, Bytes>, l: Log) {
    && ChainValid(crypto, keys, l.events)
    && Covers(crypto, keys, signers, l.signer)
    && (forall i :: 0 <= i < |l.checkpoints| ==> CheckpointHolds(crypto, l.events, signers, l.checkpoints[i]))
  }

  ghost predicate LogOk(crypto: Crypto, keys: map<nat, Bytes>, signers: map<Bytes, Bytes>, l: Log) {
    && CursorOk(l) && StoredOk(crypto, keys, signers, l)
    && (l.recorded ==> l.events != [] && l.events[|l.events| - 1].keyVersion == l.signer.version)
  }

  /** A log is opened blind when there is a last hash, it is not the one of
      genesis, and it is not read. */
  predicate OpensBlind(l: Log, hashRead: bool) {
    !hashRead && l.events != [] && l.events[LatestRow(l.events)].eventHash != Genesis()
  }

  /** The cursor of a process that opened blind and has stored nothing yet. */
  ghost predicate BlindCursor(l: Log) {
    && !l.recorded && l.nextSequence == |l.events| + 1
    && l.latestHash == Genesis() && PreviousHash(l.events, |l.events|) != Genesis()
  }

  ghost predicate Tracked(
    crypto: Crypto, keys: map<nat, Bytes>, signers: map<Bytes, Bytes>, l: Log, blind: bool)
  {
    if blind then StoredOk(crypto, keys, signers, l) && BlindCursor(l) else LogOk(crypto, keys, signers, l)
  }

  /** Whether the process that is there after `op` opened blind. */
  predicate Blind(l: Log, blind: bool, op: LogOp) {
    match op
    case Open(_, hashRead) => OpensBlind(l, hashRead)
    case _ => blind
  }

  predicate BlindAfter(crypto: Crypto, l: Log, blind: bool, ops: seq<LogOp>)
    decreases |ops|
  {
    if ops == [] then blind else BlindAfter(crypto, Apply(crypto, l, ops[0]), Blind(l, blind, ops[0]), ops[1..])
  }

  predicate Stores(crypto: Crypto, l: Log, op: LogOp) {
    |Apply(crypto, l, op).events| > |l.events|
  }

  /** No process that opened blind ever stored a record. */
  predicate NoBlindRecord(crypto: Crypto, l: Log, blind: bool, ops: seq<LogOp>)
    decreases |ops|
  {
    ops != [] ==>
      && !(blind && Stores(crypto, l, ops[0]))
      && NoBlindRecord(crypto, Apply(crypto, l, ops[0]), Blind(l, blind, ops[0]), ops[1..])
  }

  ghost predicate Known(crypto: Crypto, keys: map<nat, Bytes>, signers: map<Bytes, Bytes>, op: LogOp) {
    op.Open? ==> Covers(crypto, keys, signers, op.signer)
  }

  /** Lock-step, exactly. Whatever is recorded, refused or lost by the store, and
      however often the broker is reopened with other keys: the stored chain
      verifies if and only if no process that opened blind ever stored a record,
      and then so does every checkpoint, old or new. */
  lemma {:induction false} EveryRunVerifies(
    crypto: Crypto, keys: map<nat, Bytes>, signers: map<Bytes, Bytes>, l: Log, blind: bool, ops: seq<LogOp>)
    requires LawfulSignatures(crypto)
    requires Tracked(crypto, keys, signers, l, blind)
    requires forall i :: 0 <= i < |ops| ==> Known(crypto, keys, signers, ops[i])
    ensures ChainValid(crypto, keys, Run(crypto, l, ops).events) <==> NoBlindRecord(crypto, l, blind, ops)
    ensures NoBlindRecord(crypto, l, blind, ops) ==>
              Tracked(crypto, keys, signers, Run(crypto, l, ops), BlindAfter(crypto, l, blind, ops))
    decreases |ops|
  {
    hide ChainValid, StoredOk, CursorOk, BlindCursor, LogOk, Known, Apply;
    TrackedIsValid(crypto, keys, signers, l, blind);
    if ops != [] {
      var next := Apply(crypto, l, ops[0]);
      ApplyTracks(crypto, keys, signers, l, blind, ops[0]);
      if blind && Stores(crypto, l, ops[0]) {
        RunGrows(crypto, next, ops[1..]);
        if ChainValid(crypto, keys, Run(crypto, next, ops[1..]).events) {
          PrefixIsValid(crypto, keys, next.events, Run(crypto, next, ops[1..]).events);
        }
      } else {
        EveryRunVerifies(crypto, keys, signers, next, Blind(l, blind, ops[0]), ops[1..]);
      }
    }
  }

  lemma TrackedIsValid(
    crypto: Crypto, keys: map<nat, Bytes>, signers: map<Bytes, Bytes>, l: Log, blind: bool)
    requires Tracked(crypto, keys, signers, l, blind)
    ensures ChainValid(crypto, keys, l.events)
  {
  }

  /** One operation. A record stored blind does not link to the one before it. */
  lemma ApplyTracks(
    crypto: Crypto, keys: map<nat, Bytes>, signers: map<Bytes, Bytes>, l: Log, blind: bool, op: LogOp)
    requires LawfulSignatures(crypto)
    requires Tracked(crypto, keys, signers, l, blind) && Known(crypto, keys, signers, op)
    ensures var next := Apply(crypto, l, op);
            if blind && Stores(crypto, l, op) then !ChainValid(crypto, keys, next.events)
            else Tracked(crypto, keys, signers, next, Blind(l, blind, op))
  {
    match op
    case Record(content, stored) =>
      if blind {
        BlindRecordBreaks(crypto, keys, l, content, stored);
      } else {
        AppendKeeps(crypto, keys, signers, l, content, stored);
      }
    case Checkpoint(createdAt, stored) =>
      if l.recorded {
        CheckpointKeeps(crypto, keys, signers, l, createdAt, stored);
      }
    case Open(signer, hashRead) => ReopenKeeps(crypto, keys, signers, l, signer, hashRead);
  }

  lemma BlindRecordBreaks(crypto: Crypto, keys: map<nat, Bytes>, l: Log, content: EventContent, stored: bool)
    requires BlindCursor(l)
    ensures var next := Append(crypto, l, content, stored).0;
            next == l || !ChainValid(crypto, keys, next.events)
  {
    var next := Append(crypto, l, content, stored).0;
    if next != l {
      assert PreviousHash(next.events, |l.events|) == PreviousHash(l.events, |l.events|);
      assert !Linked(crypto, keys, next.events, |l.events|);
    }
  }

  lemma EventsGrow(crypto: Crypto, l: Log, op: LogOp)
    ensures l.events <= Apply(crypto, l, op).events
  {
  }

  lemma {:induction false} RunGrows(crypto: Crypto, l: Log, ops: seq<LogOp>)
    ensures l.events <= Run(crypto, l, ops).events
    decreases |ops|
  {
    if ops != [] {
      EventsGrow(crypto, l, ops[0]);
      RunGrows(crypto, Apply(crypto, l, ops[0]), ops[1..]);
    }
  }

  /** What is broken stays broken. */
  lemma PrefixIsValid(crypto: Crypto, keys: map<nat, Bytes>, a: seq<AuditEvent>, b: seq<AuditEvent>)
    requires a <= b && ChainValid(crypto, keys, b)
    ensures ChainValid(crypto, keys, a)
  {
    forall i | 0 <= i < |a|
      ensures Linked(crypto, keys, a, i)
    {
      assert Linked(crypto, keys, b, i) && PreviousHash(a, i) == PreviousHash(b, i);
    }
  }

  lemma AppendKeeps(
    crypto: Crypto, keys: map<nat, Bytes>, signers: map<Bytes, Bytes>, l: Log, content: EventContent, stored: bool)
    requires LogOk(crypto, keys, signers, l)
    ensures LogOk(crypto, keys, signers, Append(crypto, l, content, stored).0)
  {
    var l' := Append(crypto, l, content, stored).0;
    if l' != l {
      var e := CreateEvent(crypto, l, content).value;
      NewRecordLinks(crypto, keys, l, content);
      forall i | 0 <= i < |l'.events|
        ensures Linked(crypto, keys, l'.events, i)
      {
        if i < |l.events| {
          assert Linked(crypto, keys, l.events, i);
        }
      }
      forall i | 0 <= i < |l.checkpoints|
        ensures CheckpointHolds(crypto, l'.events, signers, l.checkpoints[i])
      {
        assert CheckpointHolds(crypto, l.events, signers, l.checkpoints[i]);
        SearchIsStable(l.events, e, l.checkpoints[i].sequence);
      }
    }
  }

  lemma NewRecordLinks(crypto: Crypto, keys: map<nat, Bytes>, l: Log, content: EventContent)
    requires CursorOk(l) && l.signer.version in keys && keys[l.signer.version] == l.signer.key
    requires CreateEvent(crypto, l, content).Some?
    ensures var e := CreateEvent(crypto, l, content).value;
            LinkError(crypto, keys, PreviousHash(l.events, |l.events|), |l.events|, e) == None
  {
  }

  lemma {:induction false} SearchIsStable(events: seq<AuditEvent>, e: AuditEvent, sequence: nat)
    ensures var k := FirstWithSequence(events, sequence);
            k < |events| ==> FirstWithSequence(events + [e], sequence) == k
  {
    if events != [] && events[0].sequence != sequence {
      assert (events + [e])[1..] == events[1..] + [e];
      SearchIsStable(events[1..], e, sequence);
    }
  }

  lemma CheckpointKeeps(
    crypto: Crypto, keys: map<nat, Bytes>, signers: map<Bytes, Bytes>, l: Log, createdAt: Bytes, stored: bool)
    requires LawfulSignatures(crypto)
    requires LogOk(crypto, keys, signers, l) && l.recorded
    ensures LogOk(crypto, keys, signers, SignCheckpoint(crypto, l, createdAt, stored))
  {
    var n := |l.events| - 1;
    assert Linked(crypto, keys, l.events, n);
    var k := FirstWithSequence(l.events, n + 1);
    assert k == n by {
      if k < |l.events| {
        assert Linked(crypto, keys, l.events, k);
      }
    }
    var draft := AuditCheckpoint(n + 1, l.latestHash, l.signer.version, l.signer.keyId, [], createdAt);
    var message := CheckpointMessage(crypto, draft);
    assert OwnSignatureVerifies(crypto, l.signer.seed, message);
    MessageIgnoresSignature(crypto, draft, crypto.sign(l.signer.seed, message));
  }

  /** Under an intact chain the row with the largest sequence is the last. */
  lemma LatestRowIsLast(crypto: Crypto, keys: map<nat, Bytes>, events: seq<AuditEvent>)
    requires events != [] && ChainValid(crypto, keys, events)
    ensures LatestRow(events) == |events| - 1 && events[|events| - 1].sequence == |events|
  {
    var k := LatestRow(events);
    assert Linked(crypto, keys, events, k) && Linked(crypto, keys, events, |events| - 1);
  }

  lemma ReopenKeeps(
    crypto: Crypto, keys: map<nat, Bytes>, signers: map<Bytes, Bytes>, l: Log, signer: Signer, hashRead: bool)
    requires StoredOk(crypto, keys, signers, l) && Covers(crypto, keys, signers, signer)
    ensures Tracked(crypto, keys, signers, Reopen(l, signer, hashRead), OpensBlind(l, hashRead))
  {
    if l.events != [] {
      LatestRowIsLast(crypto, keys, l.events);
    }
  }

  /** The condition on opening is exact. After opening an intact log, the next
      record that is stored continues the chain if and only if the latest hash
      was read, or there was none to read. */
  lemma ReopenedLogContinues(
    crypto: Crypto, keys: map<nat, Bytes>, l: Log, signer: Signer, hashRead: bool, content: EventContent)
    requires ChainValid(crypto, keys, l.events)
    requires signer.version in keys && keys[signer.version] == signer.key
    requires l.events != [] ==> l.events[|l.events| - 1].eventHash != Genesis()
    requires Append(crypto, Reopen(l, signer, hashRead), content, true).1
    ensures ChainValid(crypto, keys, Append(crypto, Reopen(l, signer, hashRead), content, true).0.events)
            <==> hashRead || l.events == []
  {
    var restarted := Reopen(l, signer, hashRead);
    var l' := Append(crypto, restarted, content, true).0;
    var n := |l.events|;
    if n > 0 {
      LatestRowIsLast(crypto, keys, l.events);
    }
    if hashRead || n == 0 {
      NewRecordLinks(crypto, keys, restarted, content);
      forall i | 0 <= i < |l'.events|
        ensures Linked(crypto, keys, l'.events, i)
      {
        if i < n {
          assert Linked(crypto, keys, l.events, i);
        }
      }
    } else {
      assert !Linked(crypto, keys, l'.events, n);
    }
  }
}
