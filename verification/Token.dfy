/** The capability token: claims as a canonical CBOR record inside COSE_Sign1
    (sections 4.2 and 4.4 of RFC 9052). */
module Token {
  import opened ByteStrings
  import opened Wrappers
  import opened Domain
  import opened Cbor

  /** UTF-8 validity, URL parsing of origins, and the signature scheme. */
  datatype Host = Host(
    utf8: Bytes -> bool,
    parseOrigin: Bytes -> Option<Origin>,
    sign: (Bytes, Bytes) -> Bytes,
    verify: (Bytes, Bytes, Bytes) -> bool)

  datatype TokenError = Malformed | InvalidSignature

  // ------------------------------------------------------------- wire record

  const FIELDS: nat := 27

  function Schema(): (kinds: seq<Kind>)
    ensures |kinds| == FIELDS
  {
    [ Unsigned(256), Text, Text, Text, Text, Text, Text, Text, Text, Text, Text, Unsigned(TWO_32), Unsigned(TWO_32),
      Text, Unsigned(TWO_64), Text, Octets, Octets, Signed, Signed, Signed, Unsigned(TWO_32), Text, Signed,
      MaybeText, MaybeText, MaybeSigned ]
  }

  function Maybe(text: Option<Id>): Value {
    match text case None => Absent case Some(id) => Chars(id)
  }

  function Wire(c: Claims): (values: seq<Value>)
    ensures |values| == FIELDS
  {
    var s, b := c.subject, c.binding;
    [ Number(c.v), Chars(c.aud), Chars(c.jti), Chars(s.request), Chars(s.agent), Chars(s.credential),
      Chars(ActionText(s.action)),
      Chars(b.topOrigin.text), Chars(b.frameOrigin.text), Chars(b.session), Chars(b.extensionKey),
      Number(b.tab), Number(b.frame), Chars(b.document), Number(b.epoch), Chars(s.recipe),
      Items(s.recipeHash), Items(s.policyHash),
      Number(c.nbf), Number(c.iat), Number(c.consumeDeadline), Number(c.maxUses), Chars(c.issuerKey),
      Number(c.executionDeadline),
      Maybe(c.flowId), Maybe(c.stepId), match c.stepDeadline case None => Absent case Some(t) => Number(t) ]
  }

  /** An id is its prefix, an underscore, and something more. */
  predicate IsId(prefix: Bytes, id: Id) {
    prefix <= id && |id| > |prefix|
  }

  function ParseAction(text: Bytes): Option<ActionKind> {
    if text == ActionText(AuthenticatePassword) then Some(AuthenticatePassword)
    else if text == ActionText(AuthenticateTotp) then Some(AuthenticateTotp)
    else if text == ActionText(FormSensitiveFill) then Some(FormSensitiveFill)
    else if text == ActionText(OAuthAuthorize) then Some(OAuthAuthorize)
    else None
  }

  function TextOf(v: Value): Bytes {
    if v.Chars? then v.text else []
  }

  function OctetsOf(v: Value): Bytes {
    if v.Items? then v.octets else []
  }

  function NatOf(v: Value): nat {
    if v.Number? && v.n >= 0 then v.n else 0
  }

  function IntOf(v: Value): int {
    if v.Number? then v.n else 0
  }

  predicate MaybeId(prefix: Bytes, v: Value) {
    v.Chars? ==> IsId(prefix, v.text)
  }

  function MaybeOf(v: Value): Option<Id> {
    if v.Chars? then Some(v.text) else None
  }

  /** The parsers of the wire conversion all succeed. */
  predicate Parses(host: Host, w: seq<Value>)
    requires |w| == FIELDS
  {
    && IsId(Ascii("cap_"), TextOf(w[2])) && IsId(Ascii("req_"), TextOf(w[3])) && IsId(Ascii("agent_"), TextOf(w[4]))
    && IsId(Ascii("cred_"), TextOf(w[5])) && ParseAction(TextOf(w[6])).Some?
    && host.parseOrigin(TextOf(w[7])).Some? && host.parseOrigin(TextOf(w[8])).Some?
    && IsId(Ascii("bs_"), TextOf(w[9])) && IsId(Ascii("rcp_"), TextOf(w[15]))
    && MaybeId(Ascii("flw_"), w[24]) && MaybeId(Ascii("stp_"), w[25])
  }

  function SubjectOf(w: seq<Value>): Subject
    requires |w| == FIELDS && ParseAction(TextOf(w[6])).Some?
  {
    Subject(TextOf(w[3]), TextOf(w[4]), TextOf(w[5]), ParseAction(TextOf(w[6])).value,
            TextOf(w[15]), OctetsOf(w[16]), OctetsOf(w[17]))
  }

  function BindingOf(host: Host, w: seq<Value>): Binding
    requires |w| == FIELDS && host.parseOrigin(TextOf(w[7])).Some? && host.parseOrigin(TextOf(w[8])).Some?
  {
    Binding(host.parseOrigin(TextOf(w[7])).value, host.parseOrigin(TextOf(w[8])).value,
            TextOf(w[9]), TextOf(w[10]), NatOf(w[11]), NatOf(w[12]), TextOf(w[13]), NatOf(w[14]))
  }

  function FromWire(host: Host, w: seq<Value>): Option<Claims>
    requires |w| == FIELDS
  {
    if !Parses(host, w) then None
    else
      Some(Claims(NatOf(w[0]), TextOf(w[1]), TextOf(w[2]), SubjectOf(w), BindingOf(host, w),
                  IntOf(w[18]), IntOf(w[19]), IntOf(w[20]), IntOf(w[23]),
                  if w[26].Number? then Some(w[26].n) else None, MaybeOf(w[24]), MaybeOf(w[25]), NatOf(w[21]),
                  TextOf(w[22])))
  }

  /** What the Rust types guarantee of a claims value. */
  ghost predicate Typed(host: Host, c: Claims) {
    && HaveKinds(host.utf8, Schema(), Wire(c))
    && IsId(Ascii("cap_"), c.jti) && IsId(Ascii("req_"), c.subject.request) && IsId(Ascii("agent_"), c.subject.agent)
    && IsId(Ascii("cred_"), c.subject.credential) && IsId(Ascii("bs_"), c.binding.session)
    && IsId(Ascii("rcp_"), c.subject.recipe)
    && (c.flowId.Some? ==> IsId(Ascii("flw_"), c.flowId.value))
    && (c.stepId.Some? ==> IsId(Ascii("stp_"), c.stepId.value))
    && host.parseOrigin(c.binding.topOrigin.text) == Some(c.binding.topOrigin)
    && host.parseOrigin(c.binding.frameOrigin.text) == Some(c.binding.frameOrigin)
  }

  lemma ActionReadsBack(action: ActionKind)
    ensures ParseAction(ActionText(action)) == Some(action)
  {
  }

  lemma WireIds(c: Claims)
    ensures var w := Wire(c);
            w[1] == Chars(c.aud) && w[2] == Chars(c.jti) && w[3] == Chars(c.subject.request)
  {
    hide ActionText;
  }

  lemma WireTexts(c: Claims)
    ensures var w := Wire(c);
            && w[4] == Chars(c.subject.agent) && w[5] == Chars(c.subject.credential)
            && w[6] == Chars(ActionText(c.subject.action))
  {
    hide ActionText;
  }

  lemma WirePlaces(c: Claims)
    ensures var w := Wire(c);
            && w[7] == Chars(c.binding.topOrigin.text) && w[8] == Chars(c.binding.frameOrigin.text)
            && w[9] == Chars(c.binding.session) && w[10] == Chars(c.binding.extensionKey)
            && w[13] == Chars(c.binding.document)
            && w[15] == Chars(c.subject.recipe) && w[22] == Chars(c.issuerKey)
            && w[24] == Maybe(c.flowId) && w[25] == Maybe(c.stepId)
  {
    hide ActionText;
  }

  lemma WireNumbers(c: Claims)
    ensures var w := Wire(c);
            && w[0] == Number(c.v) && w[11] == Number(c.binding.tab) && w[12] == Number(c.binding.frame)
            && w[14] == Number(c.binding.epoch) && w[16] == Items(c.subject.recipeHash)
            && w[17] == Items(c.subject.policyHash)
            && w[18] == Number(c.nbf) && w[19] == Number(c.iat) && w[20] == Number(c.consumeDeadline)
            && w[21] == Number(c.maxUses) && w[23] == Number(c.executionDeadline)
            && w[26] == (match c.stepDeadline case None => Absent case Some(t) => Number(t))
  {
    hide ActionText;
  }

  lemma WireParses(host: Host, c: Claims)
    requires Typed(host, c)
    ensures Parses(host, Wire(c))
  {
    hide ActionText, ParseAction, IsId, HaveKinds, Ascii, Wire, Schema;
    WireIds(c);
    WireTexts(c);
    WirePlaces(c);
    ActionReadsBack(c.subject.action);
  }

  lemma PartsReadBack(host: Host, c: Claims)
    requires Typed(host, c) && Parses(host, Wire(c))
    ensures SubjectOf(Wire(c)) == c.subject && BindingOf(host, Wire(c)) == c.binding
  {
    hide ActionText, ParseAction, Parses, HaveKinds, Ascii, IsId, Wire, Schema;
    WireIds(c);
    WireTexts(c);
    WirePlaces(c);
    WireNumbers(c);
    ActionReadsBack(c.subject.action);
  }

  lemma WireReadsBack(host: Host, c: Claims)
    requires Typed(host, c)
    ensures FromWire(host, Wire(c)) == Some(c)
  {
    hide ActionText, Parses, SubjectOf, BindingOf, Typed, Wire;
    WireIds(c);
    WireTexts(c);
    WirePlaces(c);
    WireNumbers(c);
    WireParses(host, c);
    PartsReadBack(host, c);
  }

  // ----------------------------------------------------------------- payload

  /** Absent fields at the end are not written. */
  function Trimmed(values: seq<Value>): (r: seq<Value>)
    ensures |r| <= |values| && r == values[..|r|]
    ensures forall i :: |r| <= i < |values| ==> values[i] == Absent
  {
    if values != [] && values[|values| - 1] == Absent then Trimmed(values[..|values| - 1]) else values
  }

  function EncodePayload(values: seq<Value>): Bytes {
    var written := Trimmed(values);
    WriteHead(ARRAY, |written|) + WriteFields(written)
  }

  function Absents(n: nat): (r: seq<Value>)
    ensures |r| == n && forall i :: 0 <= i < n ==> r[i] == Absent
  {
    if n == 0 then [] else [Absent] + Absents(n - 1)
  }

  const REQUIRED: nat := 24

  /** Decode, then compare with the canonical encoding of what was decoded. An
      indefinite or longer array would decode, and fail that comparison. */
  function DecodePayload(host: Host, payload: Bytes): Option<seq<Value>> {
    match ReadValue(ARRAY, payload)
    case None => None
    case Some((count, rest)) =>
      if count < REQUIRED || count > FIELDS then None
      else match ReadFields(host.utf8, Schema()[..count], rest)
        case None => None
        case Some((values, _)) =>
          var all := values + Absents(FIELDS - count);
          if EncodePayload(all) == payload then Some(all) else None
  }

  lemma {:induction false} FieldsCounted(host: Host, kinds: seq<Kind>, s: Bytes)
    requires ReadFields(host.utf8, kinds, s).Some?
    ensures |ReadFields(host.utf8, kinds, s).value.0| == |kinds|
  {
    hide ReadField;
    if kinds != [] {
      FieldsCounted(host, kinds[1..], ReadField(host.utf8, kinds[0], s).value.1);
    }
  }

  /** The decoder accepts exactly the canonical encodings. */
  lemma PayloadIsCanonical(host: Host, payload: Bytes, values: seq<Value>)
    requires |payload| < TWO_64
    ensures DecodePayload(host, payload) == Some(values)
            <==> HaveKinds(host.utf8, Schema(), values) && EncodePayload(values) == payload
  {
    if HaveKinds(host.utf8, Schema(), values) && EncodePayload(values) == payload {
      EncodedDecodes(host, payload, values);
    }
    if DecodePayload(host, payload) == Some(values) {
      DecodedIsTyped(host, payload, values);
    }
  }

  lemma EncodedDecodes(host: Host, payload: Bytes, values: seq<Value>)
    requires HaveKinds(host.utf8, Schema(), values) && EncodePayload(values) == payload
    ensures DecodePayload(host, payload) == Some(values)
  {
    hide WriteHead, WriteFields, ReadFields, ReadValue, HasKind;
    var written := Trimmed(values);
    var count := |written|;
    assert count >= REQUIRED by {
      RequiredStays(host, values);
    }
    ValueReadsBack(ARRAY, count, WriteFields(written));
    FieldsReadBack(host.utf8, Schema()[..count], written, []);
    assert WriteFields(written) + [] == WriteFields(written);
    assert written + Absents(FIELDS - count) == values;
  }

  lemma RequiredStays(host: Host, values: seq<Value>)
    requires HaveKinds(host.utf8, Schema(), values)
    ensures |Trimmed(values)| >= REQUIRED
  {
    assert HasKind(host.utf8, Schema()[REQUIRED - 1], values[REQUIRED - 1]);
    assert Schema()[REQUIRED - 1] == Signed;
  }

  lemma DecodedIsTyped(host: Host, payload: Bytes, values: seq<Value>)
    requires |payload| < TWO_64 && DecodePayload(host, payload) == Some(values)
    ensures HaveKinds(host.utf8, Schema(), values) && EncodePayload(values) == payload
  {
    hide ReadFields, HasKind, EncodePayload;
    var (count, rest) := ReadValue(ARRAY, payload).value;
    var kinds := Schema()[..count];
    FieldsCounted(host, kinds, rest);
    SchemaLimits();
    FieldsHaveKinds(host.utf8, kinds, rest);
    var read := ReadFields(host.utf8, kinds, rest).value.0;
    forall i | 0 <= i < FIELDS
      ensures HasKind(host.utf8, Schema()[i], values[i])
    {
      if i < count {
        assert HasKind(host.utf8, kinds[i], read[i]);
      } else {
        OptionalMayBeAbsent(host, i);
      }
    }
  }

  lemma SchemaLimits()
    ensures forall i :: 0 <= i < FIELDS && Schema()[i].Unsigned? ==> Schema()[i].limit <= TWO_64
  {
  }

  lemma OptionalMayBeAbsent(host: Host, i: nat)
    requires REQUIRED <= i < FIELDS
    ensures HasKind(host.utf8, Schema()[i], Absent)
  {
  }

  // --------------------------------------------------------- COSE structures

  const COSE_ALG: nat := 1
  const COSE_KID: nat := 4
  const EDDSA: nat := 7

  /** `{1: -8, 4: key id}`; -8 is the negative integer with argument 7. */
  function ProtectedHeader(keyId: Bytes): Bytes {
    WriteHead(MAP, 2) + (WriteHead(UNSIGNED, COSE_ALG) + (WriteHead(NEGATIVE, EDDSA)
    + (WriteHead(UNSIGNED, COSE_KID) + WriteString(TEXT, keyId))))
  }

  /** Reads a head that must have this very value. */
  function Expect(major: nat, value: nat, s: Bytes): Option<Bytes> {
    match ReadValue(major, s)
    case None => None
    case Some((n, rest)) => if n == value then Some(rest) else None
  }

  function DecodeProtected(host: Host, header: Bytes): Option<Bytes> {
    match Expect(MAP, 2, header)
    case None => None
    case Some(a) =>
      match Expect(UNSIGNED, COSE_ALG, a)
      case None => None
      case Some(b) =>
        match Expect(NEGATIVE, EDDSA, b)
        case None => None
        case Some(c) =>
          match Expect(UNSIGNED, COSE_KID, c)
          case None => None
          case Some(d) =>
            match ReadText(host.utf8, d)
            case None => None
            case Some((v, rest)) =>
              if rest == [] && v.Chars? && ProtectedHeader(v.text) == header then Some(v.text) else None
  }

  lemma ExpectReadsBack(major: nat, value: nat, tail: Bytes)
    requires major < 8 && value < TWO_64
    ensures Expect(major, value, WriteHead(major, value) + tail) == Some(tail)
  {
    hide ReadValue, WriteHead;
    ValueReadsBack(major, value, tail);
  }

  lemma HeaderIsCanonical(host: Host, header: Bytes, keyId: Bytes)
    requires |header| < TWO_64
    ensures DecodeProtected(host, header) == Some(keyId)
            <==> host.utf8(keyId) && |keyId| < TWO_64 && ProtectedHeader(keyId) == header
  {
    hide ReadValue, WriteHead, ReadText, WriteString, Expect;
    if host.utf8(keyId) && |keyId| < TWO_64 && ProtectedHeader(keyId) == header {
      var e := WriteString(TEXT, keyId);
      var d := WriteHead(UNSIGNED, COSE_KID) + e;
      var c := WriteHead(NEGATIVE, EDDSA) + d;
      ExpectReadsBack(MAP, 2, WriteHead(UNSIGNED, COSE_ALG) + c);
      ExpectReadsBack(UNSIGNED, COSE_ALG, c);
      ExpectReadsBack(NEGATIVE, EDDSA, d);
      ExpectReadsBack(UNSIGNED, COSE_KID, e);
      TextReadsBack(host.utf8, Chars(keyId), []);
      assert WriteValue(Chars(keyId)) + [] == e;
    }
    if DecodeProtected(host, header) == Some(keyId) {
      KeyIsShort(keyId);
      TextIsValid(host, header, keyId);
    }
  }

  lemma KeyIsShort(keyId: Bytes)
    ensures |keyId| <= |ProtectedHeader(keyId)|
  {
  }

  lemma TextIsValid(host: Host, header: Bytes, keyId: Bytes)
    requires DecodeProtected(host, header) == Some(keyId)
    ensures host.utf8(keyId)
  {
    hide ReadString, Expect, ProtectedHeader;
  }

  function SignatureStructure(protected: Bytes, payload: Bytes): Bytes {
    WriteHead(ARRAY, 4) + (WriteString(TEXT, Ascii("Signature1"))
    + (WriteString(OCTETS, protected) + (WriteString(OCTETS, []) + WriteString(OCTETS, payload))))
  }

  /** What is signed determines header and payload. */
  lemma SignatureStructureInjective(p: Bytes, x: Bytes, q: Bytes, y: Bytes)
    requires Fits(p) && Fits(x) && Fits(q) && Fits(y)
    ensures SignatureStructure(p, x) == SignatureStructure(q, y) <==> p == q && x == y
  {
    hide WriteString, WriteHead, ReadString;
    if SignatureStructure(p, x) == SignatureStructure(q, y) {
      var a, b := WriteString(OCTETS, []) + WriteString(OCTETS, x), WriteString(OCTETS, []) + WriteString(OCTETS, y);
      var front := WriteHead(ARRAY, 4) + WriteString(TEXT, Ascii("Signature1"));
      assert SignatureStructure(p, x) == front + (WriteString(OCTETS, p) + a);
      assert SignatureStructure(q, y) == front + (WriteString(OCTETS, q) + b);
      SplitEqual(front, WriteString(OCTETS, p) + a, front, WriteString(OCTETS, q) + b);
      StringReadsBack(OCTETS, p, a);
      StringReadsBack(OCTETS, q, b);
      SplitEqual(WriteString(OCTETS, []), WriteString(OCTETS, x), WriteString(OCTETS, []), WriteString(OCTETS, y));
      StringReadsBack(OCTETS, x, []);
      StringReadsBack(OCTETS, y, []);
      assert WriteString(OCTETS, x) + [] == WriteString(OCTETS, x);
      assert WriteString(OCTETS, y) + [] == WriteString(OCTETS, y);
    }
  }

  datatype Sign1 = Sign1(protected: Bytes, payload: Bytes, signature: Bytes)

  function EncodeSign1(m: Sign1): Bytes {
    WriteHead(ARRAY, 4) + (WriteString(OCTETS, m.protected)
    + (WriteHead(MAP, 0) + (WriteString(OCTETS, m.payload) + WriteString(OCTETS, m.signature))))
  }

  /** The outer array may use heads of any width. */
  function DecodeSign1(token: Bytes): Option<Sign1> {
    match Expect(ARRAY, 4, token)
    case None => None
    case Some(a) =>
      match ReadString(OCTETS, a)
      case None => None
      case Some((protected, b)) =>
        match Expect(MAP, 0, b)
        case None => None
        case Some(c) =>
          match ReadString(OCTETS, c)
          case None => None
          case Some((payload, d)) =>
            match ReadString(OCTETS, d)
            case None => None
            case Some((signature, rest)) => if rest == [] then Some(Sign1(protected, payload, signature)) else None
  }

  lemma Sign1ReadsBack(m: Sign1)
    requires Fits(m.protected) && Fits(m.payload) && Fits(m.signature)
    ensures DecodeSign1(EncodeSign1(m)) == Some(m)
  {
    hide WriteString, WriteHead, ReadString, Expect;
    var d := WriteString(OCTETS, m.signature);
    var c := WriteString(OCTETS, m.payload) + d;
    ExpectReadsBack(ARRAY, 4, WriteString(OCTETS, m.protected) + (WriteHead(MAP, 0) + c));
    StringReadsBack(OCTETS, m.protected, WriteHead(MAP, 0) + c);
    ExpectReadsBack(MAP, 0, c);
    StringReadsBack(OCTETS, m.payload, d);
    StringReadsBack(OCTETS, m.signature, []);
    assert d + [] == d;
  }

  /** The decoder as the source runs it: a position moving over the token. */
  class Decoder {
    const input: Bytes
    var position: nat

    constructor (input: Bytes)
      ensures this.input == input && position == 0
    {
      this.input, position := input, 0;
    }

    ghost predicate Valid()
      reads this
    {
      position <= |input|
    }

    function Left(): Bytes
      requires Valid()
      reads this
    {
      input[position..]
    }

    method Value(major: nat) returns (r: Option<nat>)
      requires Valid()
      modifies this`position
      ensures Valid()
      ensures match ReadValue(major, old(Left()))
              case None => r == None
              case Some((n, rest)) => r == Some(n) && Left() == rest
    {
      match ReadValue(major, input[position..])
      case None => return None;
      case Some((n, rest)) =>
        ReadsASuffix(major, input[position..]);
        position := |input| - |rest|;
        return Some(n);
    }

    method Octets() returns (r: Option<Bytes>)
      requires Valid()
      modifies this`position
      ensures Valid()
      ensures match ReadString(OCTETS, old(Left()))
              case None => r == None
              case Some((v, rest)) => r == Some(v) && Left() == rest
    {
      hide ReadValue;
      var length := Value(OCTETS);
      match length
      case None => return None;
      case Some(n) =>
        if n > |input| - position {
          return None;
        }
        ghost var from := Left();
        var v := input[position..position + n];
        position := position + n;
        assert v == from[..n] && Left() == from[n..];
        return Some(v);
    }
  }

  lemma ReadsASuffix(major: nat, s: Bytes)
    ensures match ReadValue(major, s)
            case None => true
            case Some((_, rest)) => |rest| <= |s| && rest == s[|s| - |rest|..]
  {
  }

  method DecodeCoseSign1(token: Bytes) returns (r: Option<Sign1>)
    ensures r == DecodeSign1(token)
  {
    hide ReadValue, ReadString;
    var decoder := new Decoder(token);
    assert decoder.Left() == token;
    var items := decoder.Value(ARRAY);
    if items != Some(4) {
      return None;
    }
    var protected := decoder.Octets();
    if protected == None {
      return None;
    }
    var unprotected := decoder.Value(MAP);
    if unprotected != Some(0) {
      return None;
    }
    var payload := decoder.Octets();
    if payload == None {
      return None;
    }
    var signature := decoder.Octets();
    if signature == None || decoder.position != |token| {
      return None;
    }
    return Some(Sign1(protected.value, payload.value, signature.value));
  }

  // ------------------------------------------------------------------ tokens

  function EncodeToken(host: Host, c: Claims, key: Bytes): Bytes {
    var protected, payload := ProtectedHeader(c.issuerKey), EncodePayload(Wire(c));
    EncodeSign1(Sign1(protected, payload, host.sign(key, SignatureStructure(protected, payload))))
  }

  datatype Decoded = Decoded(claims: Claims, parts: Sign1)

  function DecodeToken(host: Host, token: Bytes): Result<Decoded, TokenError> {
    match DecodeSign1(token)
    case None => Failure(Malformed)
    case Some(parts) =>
      match DecodeProtected(host, parts.protected)
      case None => Failure(Malformed)
      case Some(keyId) =>
        match DecodePayload(host, parts.payload)
        case None => Failure(Malformed)
        case Some(w) =>
          if |w| != FIELDS then Failure(Malformed)
          else match FromWire(host, w)
            case None => Failure(Malformed)
            case Some(claims) =>
              if claims.issuerKey != keyId then Failure(InvalidSignature) else Success(Decoded(claims, parts))
  }

  function ParseAndVerify(host: Host, token: Bytes, publicKey: Bytes): Result<Claims, TokenError> {
    match DecodeToken(host, token)
    case Failure(error) => Failure(error)
    case Success(d) =>
      if host.verify(publicKey, SignatureStructure(d.parts.protected, d.parts.payload), d.parts.signature)
      then Success(d.claims) else Failure(InvalidSignature)
  }

  /** All parts of the encoded token are of a size a length can express. */
  ghost predicate Sized(host: Host, c: Claims, key: Bytes) {
    && Fits(ProtectedHeader(c.issuerKey)) && Fits(EncodePayload(Wire(c)))
    && Fits(host.sign(key, SignatureStructure(ProtectedHeader(c.issuerKey), EncodePayload(Wire(c)))))
  }

  lemma IssuerIsText(host: Host, c: Claims)
    requires Typed(host, c)
    ensures host.utf8(c.issuerKey) && |c.issuerKey| < TWO_64
  {
    hide Wire;
    WirePlaces(c);
    assert HasKind(host.utf8, Schema()[22], Wire(c)[22]);
    assert Schema()[22] == Text;
  }

  /** Round trip: decoding an encoded token gives the same claims. */
  lemma TokenRoundTrip(host: Host, c: Claims, key: Bytes)
    requires Typed(host, c) && Sized(host, c, key)
    ensures DecodeToken(host, EncodeToken(host, c, key)).Success?
    ensures DecodeToken(host, EncodeToken(host, c, key)).value.claims == c
  {
    hide EncodeSign1, DecodeSign1, ProtectedHeader, DecodeProtected, EncodePayload, DecodePayload, FromWire, Schema,
         HaveKinds,
         SignatureStructure, Wire;
    var protected, payload := ProtectedHeader(c.issuerKey), EncodePayload(Wire(c));
    Sign1ReadsBack(Sign1(protected, payload, host.sign(key, SignatureStructure(protected, payload))));
    IssuerIsText(host, c);
    HeaderIsCanonical(host, protected, c.issuerKey);
    PayloadIsCanonical(host, payload, Wire(c));
    WireReadsBack(host, c);
  }

  /** Whatever is accepted was canonical: its protected header and payload are
      the encodings of the key id and of a well-typed record, and no other bytes
      would have decoded to that record. */
  lemma AcceptedIsCanonical(host: Host, token: Bytes)
    requires |token| < TWO_64 && DecodeToken(host, token).Success?
    ensures var d := DecodeToken(host, token).value;
            && d.parts.protected == ProtectedHeader(d.claims.issuerKey)
            && exists w: seq<Value> ::
                 && |w| == FIELDS && HaveKinds(host.utf8, Schema(), w)
                 && d.parts.payload == EncodePayload(w) && FromWire(host, w) == Some(d.claims)
                 && forall p: Bytes :: |p| < TWO_64 && DecodePayload(host, p) == Some(w) ==> p == d.parts.payload
  {
    hide ProtectedHeader, DecodeProtected, EncodePayload, DecodePayload, FromWire, Schema, HaveKinds, DecodeSign1;
    var d := DecodeToken(host, token).value;
    PartsAreShort(token);
    HeaderIsCanonical(host, d.parts.protected, d.claims.issuerKey);
    var w := DecodePayload(host, d.parts.payload).value;
    PayloadIsCanonical(host, d.parts.payload, w);
    forall p: Bytes | |p| < TWO_64 && DecodePayload(host, p) == Some(w)
      ensures p == d.parts.payload
    {
      PayloadIsCanonical(host, p, w);
    }
  }

  lemma PartsAreShort(token: Bytes)
    requires DecodeSign1(token).Some?
    ensures |DecodeSign1(token).value.protected| <= |token| && |DecodeSign1(token).value.payload| <= |token|
  {
    hide ReadValue;
  }

  /** No one but the holder of the key made a signature that verifies, and the
      holder only signed minted claims. */
  ghost predicate OnlyMintedSigned(host: Host, publicKey: Bytes, minted: set<Claims>) {
    forall message: Bytes, signature: Bytes :: host.verify(publicKey, message, signature) ==>
      exists c :: c in minted && message == SignatureStructure(ProtectedHeader(c.issuerKey), EncodePayload(Wire(c)))
  }

  /** Then every token that is accepted carries claims that were minted, to the
      last field. */
  lemma AcceptedWasMinted(host: Host, token: Bytes, publicKey: Bytes, minted: set<Claims>)
    requires |token| < TWO_64
    requires OnlyMintedSigned(host, publicKey, minted)
    requires forall c :: c in minted ==>
               Typed(host, c) && Fits(ProtectedHeader(c.issuerKey)) && Fits(EncodePayload(Wire(c)))
    requires ParseAndVerify(host, token, publicKey).Success?
    ensures ParseAndVerify(host, token, publicKey).value in minted
  {
    hide ProtectedHeader, DecodeProtected, EncodePayload, DecodePayload, FromWire, Schema, HaveKinds, DecodeSign1, Wire,
         SignatureStructure, Typed;
    var d := DecodeToken(host, token).value;
    PartsAreShort(token);
    var c :| c in minted && SignatureStructure(d.parts.protected, d.parts.payload)
                            == SignatureStructure(ProtectedHeader(c.issuerKey), EncodePayload(Wire(c)));
    SignatureStructureInjective(
      d.parts.protected, d.parts.payload, ProtectedHeader(c.issuerKey), EncodePayload(Wire(c)));
    MintedDecodes(host, c);
  }

  lemma MintedDecodes(host: Host, c: Claims)
    requires Typed(host, c) && Fits(EncodePayload(Wire(c)))
    ensures DecodePayload(host, EncodePayload(Wire(c))) == Some(Wire(c)) && FromWire(host, Wire(c)) == Some(c)
  {
    hide EncodePayload, DecodePayload, FromWire, Schema, HaveKinds, Wire;
    PayloadIsCanonical(host, EncodePayload(Wire(c)), Wire(c));
    WireReadsBack(host, c);
  }
}
