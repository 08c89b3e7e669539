/** The audit ledger: keyed hash chain, chain verifier, signed checkpoints.

    Hash, MAC and signature functions are parameters. No result assumes that a
    hash is injective: where two records would have to hash alike, the theorem
    says so and names them. */
module Audit {
  import opened ByteStrings
  import opened Wrappers

  /** `key` comes first; `sign` and `publicKey` take the private seed. The two
      domain-separation strings may be any bytes. */
  datatype Crypto = Crypto(
    eventDomain: Bytes,
    checkpointDomain: Bytes,
    mac: (Bytes, Bytes) -> Bytes,
    sha: Bytes -> Bytes,
    sign: (Bytes, Bytes) -> Bytes,
    publicKey: Bytes -> Bytes,
    signatureOk: (Bytes, Bytes, Bytes) -> bool
  )

  /** Signatures made with a key verify under its public half. */
  ghost predicate LawfulSignatures(crypto: Crypto) {
    forall seed: Bytes, message: Bytes :: OwnSignatureVerifies(crypto, seed, message)
  }

  predicate OwnSignatureVerifies(crypto: Crypto, seed: Bytes, message: Bytes) {
    crypto.signatureOk(crypto.publicKey(seed), message, crypto.sign(seed, message))
  }

  datatype AuditEvent = AuditEvent(
    sequence: nat,
    eventId: Bytes,
    eventType: Bytes,
    actorType: Bytes,
    actorId: Option<Bytes>,
    eventJson: Bytes,
    keyVersion: nat,
    previousHash: Bytes,
    eventHash: Bytes,
    createdAt: Bytes
  )

  datatype AuditCheckpoint = AuditCheckpoint(
    sequence: nat,
    eventHash: Bytes,
    keyVersion: nat,
    signingKeyId: Bytes,
    signature: Bytes,
    createdAt: Bytes
  )

  datatype AuditError =
    | ChainBroken(sequence: nat)
    | UnknownKeyVersion(version: nat)
    | InvalidKey
    | UnknownSigningKey(keyId: Bytes)

  const MIN_KEY_BYTES: nat := 32

  /** The hash before the first record: 32 zero bytes. */
  function Genesis(): Bytes {
    seq(32, _ => 0)
  }

  function ActorText(e: AuditEvent): Bytes {
    match e.actorId
    case None => []
    case Some(actor) => actor
  }

  function EventPieces(crypto: Crypto, e: AuditEvent): seq<Piece> {
    [ Raw(crypto.eventDomain), Raw(BigEndian(e.keyVersion, 4)), Prefixed(e.previousHash), Raw(BigEndian(e.sequence, 8)),
      Prefixed(e.eventId), Prefixed(e.eventType), Prefixed(e.actorType), Prefixed(ActorText(e)),
      Prefixed(e.eventJson), Prefixed(e.createdAt) ]
  }

  function EventPreimage(crypto: Crypto, e: AuditEvent): Bytes {
    Joined(EventPieces(crypto, e))
  }

  /** `compute_event_hash`: refuses version zero and keys under 32 bytes. */
  function ComputeEventHash(crypto: Crypto, key: Bytes, e: AuditEvent): Option<Bytes> {
    if e.keyVersion == 0 || |key| < MIN_KEY_BYTES then None
    else Some(crypto.mac(key, EventPreimage(crypto, e)))
  }

  /** Pre-image of the records written before keys were introduced. */
  function LegacyPreimage(e: AuditEvent): Bytes {
    Joined([Raw(e.previousHash), Raw(BigEndian(e.sequence, 8))] + [Raw(e.eventId), Raw(e.eventType)]
           + [Raw(e.actorType), Raw(ActorText(e)), Raw(e.eventJson), Raw(e.createdAt)])
  }

  /** The Rust widths: `u32` key version, `u64` sequence, `usize` lengths. */
  ghost predicate Sized(e: AuditEvent) {
    && e.sequence < TWO_64 && e.keyVersion < TWO_32
    && Fits(e.eventId) && Fits(e.eventType) && Fits(e.actorType) && Fits(ActorText(e))
    && Fits(e.eventJson) && Fits(e.previousHash) && Fits(e.createdAt)
  }

  /** Equal up to an absent actor and an empty one, which are hashed alike. */
  ghost predicate SameEvent(a: AuditEvent, b: AuditEvent) {
    a == b.(actorId := a.actorId) && ActorText(a) == ActorText(b)
  }

  lemma EventPreimageInjective(crypto: Crypto, a: AuditEvent, b: AuditEvent)
    requires Sized(a) && Sized(b)
    requires EventPreimage(crypto, a) == EventPreimage(crypto, b)
    requires a.eventHash == b.eventHash
    ensures SameEvent(a, b)
  {
    Pow256Values();
    var p, q := EventPieces(crypto, a), EventPieces(crypto, b);
    JoinedInjective(p, q);
    assert p[1] == q[1] && p[2] == q[2] && p[3] == q[3] && p[4] == q[4] && p[5] == q[5];
    assert p[6] == q[6] && p[7] == q[7] && p[8] == q[8] && p[9] == q[9];
    BigEndianInjective(a.keyVersion, b.keyVersion, 4);
    BigEndianInjective(a.sequence, b.sequence, 8);
  }

  // --------------------------------------------------------------- verifier

  function PreviousHash(events: seq<AuditEvent>, i: nat): Bytes
    requires i <= |events|
  {
    if i == 0 then Genesis() else events[i - 1].eventHash
  }

  /** What is wrong with event `i`, given the hash before it. */
  function LinkError(crypto: Crypto, keys: map<nat, Bytes>, previous: Bytes, i: nat, e: AuditEvent): Option<AuditError>
  {
    if e.sequence != i + 1 || e.previousHash != previous then Some(ChainBroken(e.sequence))
    else if e.keyVersion == 0 then
      if crypto.sha(LegacyPreimage(e)) != e.eventHash then Some(ChainBroken(e.sequence)) else None
    else if e.keyVersion !in keys then Some(UnknownKeyVersion(e.keyVersion))
    else match ComputeEventHash(crypto, keys[e.keyVersion], e)
      case None => Some(InvalidKey)
      case Some(hash) => if hash != e.eventHash then Some(ChainBroken(e.sequence)) else None
  }

  ghost predicate Linked(crypto: Crypto, keys: map<nat, Bytes>, events: seq<AuditEvent>, i: nat)
    requires i < |events|
  {
    LinkError(crypto, keys, PreviousHash(events, i), i, events[i]) == None
  }

  /** The ledger is intact: every record chains to the one before it. */
  ghost predicate ChainValid(crypto: Crypto, keys: map<nat, Bytes>, events: seq<AuditEvent>) {
    forall i :: 0 <= i < |events| ==> Linked(crypto, keys, events, i)
  }

  /** `error` is what the verifier reports first, about event `k`. */
  ghost predicate FirstFault(
    crypto: Crypto, keys: map<nat, Bytes>, events: seq<AuditEvent>, k: nat, error: AuditError)
  {
    && k < |events|
    && (forall j :: 0 <= j < k ==> Linked(crypto, keys, events, j))
    && LinkError(crypto, keys, PreviousHash(events, k), k, events[k]) == Some(error)
  }

  method VerifyAuditChain(crypto: Crypto, events: seq<AuditEvent>, keys: map<nat, Bytes>)
    returns (verdict: Outcome<AuditError>)
    ensures verdict.Pass? <==> ChainValid(crypto, keys, events)
    ensures verdict.Fail? ==> exists k: nat :: FirstFault(crypto, keys, events, k, verdict.error)
  {
    var expectedPrevious := Genesis();
    for i := 0 to |events|
      invariant expectedPrevious == PreviousHash(events, i)
      invariant forall j :: 0 <= j < i ==> Linked(crypto, keys, events, j)
    {
      var fault := CheckLink(crypto, keys, expectedPrevious, i, events[i]);
      if fault.Some? {
        assert FirstFault(crypto, keys, events, i, fault.value);
        assert !Linked(crypto, keys, events, i);
        return Fail(fault.value);
      }
      expectedPrevious := events[i].eventHash;
    }
    return Pass;
  }

  /** One round of the verifier's loop. */
  method CheckLink(crypto: Crypto, keys: map<nat, Bytes>, expectedPrevious: Bytes, i: nat, e: AuditEvent)
    returns (fault: Option<AuditError>)
    ensures fault == LinkError(crypto, keys, expectedPrevious, i, e)
  {
    if e.sequence != i + 1 || e.previousHash != expectedPrevious {
      return Some(ChainBroken(e.sequence));
    }
    var computed: Bytes;
    if e.keyVersion == 0 {
      computed := crypto.sha(LegacyPreimage(e));
    } else {
      if e.keyVersion !in keys {
        return Some(UnknownKeyVersion(e.keyVersion));
      }
      match ComputeEventHash(crypto, keys[e.keyVersion], e)
      case None => return Some(InvalidKey);
      case Some(hash) => computed := hash;
    }
    if computed != e.eventHash {
      return Some(ChainBroken(e.sequence));
    }
    return None;
  }

  // ------------------------------------------------------------ checkpoints

  function CheckpointMessage(crypto: Crypto, c: AuditCheckpoint): Bytes {
    crypto.sha(Joined([
      Raw(crypto.checkpointDomain), Raw(BigEndian(c.sequence, 8)), Prefixed(c.eventHash),
      Raw(BigEndian(c.keyVersion, 4)), Prefixed(c.signingKeyId), Raw(c.createdAt) ]))
  }

  lemma MessageIgnoresSignature(crypto: Crypto, c: AuditCheckpoint, signature: Bytes)
    ensures CheckpointMessage(crypto, c.(signature := signature)) == CheckpointMessage(crypto, c)
  {
  }

  /** Index of the first event with this sequence number, or the length. */
  function FirstWithSequence(events: seq<AuditEvent>, sequence: nat): (k: nat)
    ensures k <= |events|
    ensures k < |events| ==> events[k].sequence == sequence
    ensures forall j :: 0 <= j < k ==> events[j].sequence != sequence
  {
    if events == [] || events[0].sequence == sequence then 0
    else 1 + FirstWithSequence(events[1..], sequence)
  }

  function CheckpointError(crypto: Crypto, events: seq<AuditEvent>, signers: map<Bytes, Bytes>, c: AuditCheckpoint)
    : Option<AuditError>
  {
    var k: nat := FirstWithSequence(events, c.sequence);
    if k == |events| || events[k].eventHash != c.eventHash || events[k].keyVersion != c.keyVersion
    then Some(ChainBroken(c.sequence))
    else if c.signingKeyId !in signers then Some(UnknownSigningKey(c.signingKeyId))
    else if !crypto.signatureOk(signers[c.signingKeyId], CheckpointMessage(crypto, c), c.signature)
    then Some(ChainBroken(c.sequence))
    else None
  }

  ghost predicate CheckpointHolds(
    crypto: Crypto, events: seq<AuditEvent>, signers: map<Bytes, Bytes>, c: AuditCheckpoint)
  {
    CheckpointError(crypto, events, signers, c) == None
  }

  method VerifyAuditCheckpoints(
    crypto: Crypto, events: seq<AuditEvent>, checkpoints: seq<AuditCheckpoint>, signers: map<Bytes, Bytes>
  ) returns (verdict: Outcome<AuditError>)
    ensures verdict.Pass?
            <==> forall i :: 0 <= i < |checkpoints| ==> CheckpointHolds(crypto, events, signers, checkpoints[i])
    ensures verdict.Fail? ==>
              exists k :: 0 <= k < |checkpoints|
                && (forall i :: 0 <= i < k ==> CheckpointHolds(crypto, events, signers, checkpoints[i]))
                && CheckpointError(crypto, events, signers, checkpoints[k]) == Some(verdict.error)
  {
    for i := 0 to |checkpoints|
      invariant forall j :: 0 <= j < i ==> CheckpointHolds(crypto, events, signers, checkpoints[j])
    {
      var fault := CheckCheckpoint(crypto, events, signers, checkpoints[i]);
      if fault.Some? {
        assert !CheckpointHolds(crypto, events, signers, checkpoints[i]);
        return Fail(fault.value);
      }
    }
    return Pass;
  }

  /** One round of the checkpoint loop: a linear search, then three tests. */
  method CheckCheckpoint(crypto: Crypto, events: seq<AuditEvent>, signers: map<Bytes, Bytes>, c: AuditCheckpoint)
    returns (fault: Option<AuditError>)
    ensures fault == CheckpointError(crypto, events, signers, c)
  {
    var k := 0;
    while k < |events| && events[k].sequence != c.sequence
      invariant 0 <= k <= |events|
      invariant forall j :: 0 <= j < k ==> events[j].sequence != c.sequence
    {
      k := k + 1;
    }
    assert k == FirstWithSequence(events, c.sequence);
    if k == |events| || events[k].eventHash != c.eventHash || events[k].keyVersion != c.keyVersion {
      return Some(ChainBroken(c.sequence));
    }
    if c.signingKeyId !in signers {
      return Some(UnknownSigningKey(c.signingKeyId));
    }
    if !crypto.signatureOk(signers[c.signingKeyId], CheckpointMessage(crypto, c), c.signature) {
      return Some(ChainBroken(c.sequence));
    }
    return None;
  }

  // --------------------------------------------------------- tamper evidence

  ghost predicate Keyed(events: seq<AuditEvent>, n: nat)
    requires n <= |events|
  {
    forall i :: 0 <= i < n ==> events[i].keyVersion != 0 && Sized(events[i])
  }

  /** Two records that are not the same to the MAC have the same one, each under
      the key of its own version. */
  predicate Collide(crypto: Crypto, keys: map<nat, Bytes>, e: AuditEvent, f: AuditEvent) {
    && EventPreimage(crypto, e) != EventPreimage(crypto, f)
    && e.keyVersion in keys && f.keyVersion in keys
    && crypto.mac(keys[e.keyVersion], EventPreimage(crypto, e))
       == crypto.mac(keys[f.keyVersion], EventPreimage(crypto, f))
  }

  /** Somewhere among the first `n` records the logs have such a pair. */
  ghost predicate CollideBefore(
    crypto: Crypto, keys: map<nat, Bytes>, a: seq<AuditEvent>, b: seq<AuditEvent>, n: nat)
    requires n <= |a| && n <= |b|
  {
    exists i :: 0 <= i < n && Collide(crypto, keys, a[i], b[i])
  }

  /** Two intact logs that share one hash share everything before it, or two of
      their records collide. */
  lemma {:induction false} SharedHashSharesHistory(
    crypto: Crypto, keys: map<nat, Bytes>, a: seq<AuditEvent>, b: seq<AuditEvent>, k: nat)
    requires ChainValid(crypto, keys, a) && ChainValid(crypto, keys, b)
    requires k < |a| && k < |b|
    requires Keyed(a, k + 1) && Keyed(b, k + 1)
    requires a[k].eventHash == b[k].eventHash
    ensures CollideBefore(crypto, keys, a, b, k + 1) || forall i :: 0 <= i <= k ==> SameEvent(a[i], b[i])
  {
    assert Linked(crypto, keys, a, k) && Linked(crypto, keys, b, k);
    if EventPreimage(crypto, a[k]) != EventPreimage(crypto, b[k]) {
      assert Collide(crypto, keys, a[k], b[k]);
    } else {
      EventPreimageInjective(crypto, a[k], b[k]);
      if k > 0 {
        SharedHashSharesHistory(crypto, keys, a, b, k - 1);
      }
    }
  }

  /** Tamper evidence. If two logs both verify under the same keys and both
      satisfy one checkpoint, every event up to the checkpoint is the same in
      both, or two records at the same place up to it collide. */
  lemma TamperEvidence(
    crypto: Crypto, keys: map<nat, Bytes>, signers: map<Bytes, Bytes>,
    a: seq<AuditEvent>, b: seq<AuditEvent>, c: AuditCheckpoint)
    requires ChainValid(crypto, keys, a) && ChainValid(crypto, keys, b)
    requires CheckpointHolds(crypto, a, signers, c) && CheckpointHolds(crypto, b, signers, c)
    requires c.sequence <= |a| && c.sequence <= |b| ==> Keyed(a, c.sequence) && Keyed(b, c.sequence)
    ensures 1 <= c.sequence <= |a| && c.sequence <= |b|
    ensures CollideBefore(crypto, keys, a, b, c.sequence) || forall i :: 0 <= i < c.sequence ==> SameEvent(a[i], b[i])
  {
    var i := FirstWithSequence(a, c.sequence);
    var j := FirstWithSequence(b, c.sequence);
    assert Linked(crypto, keys, a, i) && Linked(crypto, keys, b, j);
    SharedHashSharesHistory(crypto, keys, a, b, c.sequence - 1);
  }

  /** The reservation about actors is exact: replacing an absent actor by an
      empty one, or back, is never noticed. */
  lemma AbsentActorIsEmptyActor(crypto: Crypto, keys: map<nat, Bytes>, a: seq<AuditEvent>, b: seq<AuditEvent>)
    requires |a| == |b| && forall i :: 0 <= i < |a| ==> SameEvent(a[i], b[i])
    ensures ChainValid(crypto, keys, a) <==> ChainValid(crypto, keys, b)
  {
    forall i | 0 <= i < |a|
      ensures Linked(crypto, keys, a, i) <==> Linked(crypto, keys, b, i)
    {
      assert SameEvent(a[i], b[i]);
      if i > 0 {
        assert SameEvent(a[i - 1], b[i - 1]);
      }
      SameLink(crypto, keys, PreviousHash(a, i), i, a[i], b[i]);
    }
  }

  lemma SameLink(crypto: Crypto, keys: map<nat, Bytes>, previous: Bytes, i: nat, e: AuditEvent, f: AuditEvent)
    requires SameEvent(e, f)
    ensures LinkError(crypto, keys, previous, i, e) == LinkError(crypto, keys, previous, i, f)
  {
  }

  /** What a record of version zero hashes after hash and sequence number: six
      texts with nothing to tell where one ends. */
  function Unframed(e: AuditEvent): Bytes {
    e.eventId + e.eventType + e.actorType + ActorText(e) + e.eventJson + e.createdAt
  }

  lemma LegacyIsUnframed(e: AuditEvent)
    ensures LegacyPreimage(e) == e.previousHash + BigEndian(e.sequence, 8) + Unframed(e)
  {
    hide Joined, BigEndian;
    var last := [Raw(e.eventJson), Raw(e.createdAt)];
    var actor := [Raw(e.actorType), Raw(ActorText(e))] + last;
    var event := [Raw(e.eventId), Raw(e.eventType)] + actor;
    assert [Raw(e.actorType), Raw(ActorText(e)), Raw(e.eventJson), Raw(e.createdAt)] == actor;
    var cursor := [Raw(e.previousHash), Raw(BigEndian(e.sequence, 8))];
    assert cursor + [Raw(e.eventId), Raw(e.eventType)] + actor == cursor + event && last + [] == last;
    RawsJoin(e.eventJson, e.createdAt, []);
    RawsJoin(e.actorType, ActorText(e), last);
    RawsJoin(e.eventId, e.eventType, actor);
    RawsJoin(e.previousHash, BigEndian(e.sequence, 8), event);
    NothingJoins();
    assert e.eventJson + e.createdAt + [] == e.eventJson + e.createdAt;
    assert Unframed(e) == e.eventId + e.eventType + (e.actorType + ActorText(e) + (e.eventJson + e.createdAt));
  }

  lemma NothingJoins()
    ensures Joined([]) == []
  {
  }

  /** Another version-zero record could stand at `k` with the same hashes. */
  ghost predicate Ambiguous(crypto: Crypto, keys: map<nat, Bytes>, log: seq<AuditEvent>, k: nat)
    requires k < |log|
  {
    exists f: AuditEvent ::
      && f.keyVersion == 0 && f.eventHash == log[k].eventHash && LegacyPreimage(f) == LegacyPreimage(log[k])
      && !SameEvent(f, log[k]) && ChainValid(crypto, keys, log[k := f])
  }

  /** A different record with the same text: all of it moved to the last field,
      or to the first if there was nothing there. */
  function Reframed(e: AuditEvent): AuditEvent {
    var blank := e.(eventId := [], eventType := [], actorType := [], actorId := None, eventJson := [], createdAt := []);
    if e.eventId != [] then blank.(createdAt := Unframed(e)) else blank.(eventId := Unframed(e))
  }

  lemma ReframedHashesAlike(e: AuditEvent)
    requires Unframed(e) != []
    ensures LegacyPreimage(Reframed(e)) == LegacyPreimage(e) && !SameEvent(Reframed(e), e)
  {
    LegacyIsUnframed(e);
    LegacyIsUnframed(Reframed(e));
    assert Unframed(Reframed(e)) == Unframed(e);
  }

  lemma ReplacedStaysValid(crypto: Crypto, keys: map<nat, Bytes>, log: seq<AuditEvent>, k: nat, f: AuditEvent)
    requires ChainValid(crypto, keys, log) && k < |log| && log[k].keyVersion == 0
    requires f.keyVersion == 0 && f.eventHash == log[k].eventHash && LegacyPreimage(f) == LegacyPreimage(log[k])
    requires f.sequence == log[k].sequence && f.previousHash == log[k].previousHash
    ensures ChainValid(crypto, keys, log[k := f])
  {
    var other := log[k := f];
    forall i | 0 <= i < |other|
      ensures Linked(crypto, keys, other, i)
    {
      assert Linked(crypto, keys, log, i);
      assert PreviousHash(other, i) == PreviousHash(log, i);
    }
  }

  lemma NothingToReframe(crypto: Crypto, keys: map<nat, Bytes>, log: seq<AuditEvent>, k: nat, f: AuditEvent)
    requires k < |log| && ChainValid(crypto, keys, log) && ChainValid(crypto, keys, log[k := f])
    requires log[k].keyVersion == f.keyVersion == 0 && f.eventHash == log[k].eventHash
    requires LegacyPreimage(f) == LegacyPreimage(log[k]) && Unframed(log[k]) == []
    ensures SameEvent(f, log[k])
  {
    var e, other := log[k], log[k := f];
    assert Linked(crypto, keys, log, k) && Linked(crypto, keys, other, k);
    assert PreviousHash(other, k) == PreviousHash(log, k);
    LegacyIsUnframed(e);
    LegacyIsUnframed(f);
    assert |Unframed(f)| == 0;
  }

  /** The version guard is exact too. A record of version zero has no length
      prefixes: another record could stand in its place, with every hash as it
      was, if and only if it says anything at all. */
  lemma UnkeyedRecordIsAmbiguous(crypto: Crypto, keys: map<nat, Bytes>, log: seq<AuditEvent>, k: nat)
    requires ChainValid(crypto, keys, log) && k < |log| && log[k].keyVersion == 0
    ensures Ambiguous(crypto, keys, log, k) <==> Unframed(log[k]) != []
  {
    hide LegacyPreimage, ChainValid, Unframed;
    if Unframed(log[k]) != [] {
      var f := Reframed(log[k]);
      ReframedHashesAlike(log[k]);
      ReplacedStaysValid(crypto, keys, log, k, f);
    } else if Ambiguous(crypto, keys, log, k) {
      var f: AuditEvent :| f.keyVersion == 0 && f.eventHash == log[k].eventHash
                           && LegacyPreimage(f) == LegacyPreimage(log[k])
                           && !SameEvent(f, log[k]) && ChainValid(crypto, keys, log[k := f]);
      NothingToReframe(crypto, keys, log, k, f);
    }
  }
}
