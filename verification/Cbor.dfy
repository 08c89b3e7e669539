/** The part of CBOR (RFC 8949) that capability tokens use: heads of any width
    when reading, of the smallest width (section 4.2.1) when writing. */
module Cbor {
  import opened ByteStrings
  import opened Wrappers

  const UNSIGNED: nat := 0
  const NEGATIVE: nat := 1
  const OCTETS: nat := 2
  const TEXT: nat := 3
  const ARRAY: nat := 4
  const MAP: nat := 5
  const NULL: byte := 0xF6

  function HeadByte(major: nat, info: nat): byte
    requires major < 8 && info < 32
  {
    (32 * major + info) as byte
  }

  function WriteHead(major: nat, n: nat): Bytes
    requires major < 8
  {
    if n < 24 then [HeadByte(major, n)]
    else if n < 0x100 then [HeadByte(major, 24)] + BigEndian(n, 1)
    else if n < 0x1_0000 then [HeadByte(major, 25)] + BigEndian(n, 2)
    else if n < TWO_32 then [HeadByte(major, 26)] + BigEndian(n, 4)
    else [HeadByte(major, 27)] + BigEndian(n, 8)
  }

  /** Bytes of argument after the first byte; none for the reserved and the
      indefinite-length forms. */
  function ArgumentWidth(info: nat): Option<nat> {
    if info < 24 then Some(0)
    else if info == 24 then Some(1)
    else if info == 25 then Some(2)
    else if info == 26 then Some(4)
    else if info == 27 then Some(8)
    else None
  }

  datatype Head = Head(major: nat, value: nat, rest: Bytes)

  function ReadHead(s: Bytes): (r: Option<Head>)
    ensures r.Some? ==> |r.value.rest| < |s|
  {
    if s == [] then None
    else
      var info := s[0] as nat % 32;
      match ArgumentWidth(info)
      case None => None
      case Some(width) =>
        if |s| < 1 + width then None
        else Some(Head(s[0] as nat / 32, if width == 0 then info else FromBigEndian(s[1..1 + width]), s[1 + width..]))
  }

  lemma HeadReadsBack(major: nat, n: nat, tail: Bytes)
    requires major < 8 && n < TWO_64
    ensures ReadHead(WriteHead(major, n) + tail) == Some(Head(major, n, tail))
  {
    hide BigEndian, FromBigEndian;
    if n < 24 {
      assert ([HeadByte(major, n)] + tail)[1..] == tail;
    } else {
      var width := if n < 0x100 then 1 else if n < 0x1_0000 then 2 else if n < TWO_32 then 4 else 8;
      Pow256Values();
      BigEndianValue(n, width);
      SmallMod(n, Pow256(width));
      var s := WriteHead(major, n) + tail;
      assert s[1..1 + width] == BigEndian(n, width) && s[1 + width..] == tail;
    }
  }

  function ReadValue(major: nat, s: Bytes): (r: Option<(nat, Bytes)>)
    ensures r.Some? ==> |r.value.1| < |s|
  {
    match ReadHead(s)
    case None => None
    case Some(h) => if h.major == major then Some((h.value, h.rest)) else None
  }

  function WriteString(major: nat, v: Bytes): Bytes
    requires major < 8
  {
    WriteHead(major, |v|) + v
  }

  function ReadString(major: nat, s: Bytes): (r: Option<(Bytes, Bytes)>)
    ensures r.Some? ==> |r.value.1| < |s|
  {
    match ReadValue(major, s)
    case None => None
    case Some((length, rest)) => if length <= |rest| then Some((rest[..length], rest[length..])) else None
  }

  lemma ValueReadsBack(major: nat, n: nat, tail: Bytes)
    requires major < 8 && n < TWO_64
    ensures ReadValue(major, WriteHead(major, n) + tail) == Some((n, tail))
  {
    hide WriteHead, ReadHead;
    HeadReadsBack(major, n, tail);
  }

  lemma StringReadsBack(major: nat, v: Bytes, tail: Bytes)
    requires major < 8 && Fits(v)
    ensures ReadString(major, WriteString(major, v) + tail) == Some((v, tail))
  {
    hide WriteHead, ReadHead, ReadValue;
    assert WriteString(major, v) + tail == WriteHead(major, |v|) + (v + tail);
    ValueReadsBack(major, |v|, v + tail);
    assert (v + tail)[..|v|] == v && (v + tail)[|v|..] == tail;
  }

  // ------------------------------------------------------------------ fields

  /** The types a wire field can have; `Octets` are arrays of small integers. */
  datatype Kind = Unsigned(limit: nat) | Signed | Text | Octets | MaybeText | MaybeSigned

  datatype Value = Number(n: int) | Chars(text: Bytes) | Items(octets: Bytes) | Absent

  const INT_LIMIT: int := 0x8000_0000_0000_0000

  function WriteOctets(v: Bytes): Bytes {
    if v == [] then [] else WriteHead(UNSIGNED, v[0] as nat) + WriteOctets(v[1..])
  }

  function ReadOctets(count: nat, s: Bytes): Option<(Bytes, Bytes)> {
    if count == 0 then Some(([], s))
    else match ReadValue(UNSIGNED, s)
      case None => None
      case Some((n, rest)) =>
        if n >= 256 then None
        else match ReadOctets(count - 1, rest)
          case None => None
          case Some((more, tail)) => Some(([n as byte] + more, tail))
  }

  lemma {:induction false} OctetsReadBack(v: Bytes, tail: Bytes)
    ensures ReadOctets(|v|, WriteOctets(v) + tail) == Some((v, tail))
  {
    hide WriteHead, ReadValue;
    if v == [] {
      assert [] + tail == tail;
    } else {
      assert WriteOctets(v) + tail == WriteHead(UNSIGNED, v[0] as nat) + (WriteOctets(v[1..]) + tail);
      ValueReadsBack(UNSIGNED, v[0] as nat, WriteOctets(v[1..]) + tail);
      OctetsReadBack(v[1..], tail);
      assert v == [v[0]] + v[1..];
    }
  }

  function WriteValue(v: Value): Bytes {
    match v
    case Number(n) => if n >= 0 then WriteHead(UNSIGNED, n) else WriteHead(NEGATIVE, -1 - n)
    case Chars(text) => WriteString(TEXT, text)
    case Items(octets) => WriteHead(ARRAY, |octets|) + WriteOctets(octets)
    case Absent => [NULL]
  }

  function ReadSigned(s: Bytes): Option<(Value, Bytes)> {
    match ReadHead(s)
    case None => None
    case Some(h) =>
      if h.value >= INT_LIMIT then None
      else if h.major == UNSIGNED then Some((Number(h.value), h.rest))
      else if h.major == NEGATIVE then Some((Number(-1 - h.value), h.rest))
      else None
  }

  function ReadText(utf8: Bytes -> bool, s: Bytes): Option<(Value, Bytes)> {
    match ReadString(TEXT, s)
    case None => None
    case Some((text, rest)) => if utf8(text) then Some((Chars(text), rest)) else None
  }

  function ReadField(utf8: Bytes -> bool, kind: Kind, s: Bytes): Option<(Value, Bytes)> {
    match kind
    case Unsigned(limit) =>
      (match ReadValue(UNSIGNED, s)
       case None => None
       case Some((n, rest)) => if n < limit then Some((Number(n), rest)) else None)
    case Signed => ReadSigned(s)
    case Text => ReadText(utf8, s)
    case Octets =>
      (match ReadValue(ARRAY, s)
       case None => None
       case Some((count, rest)) =>
         match ReadOctets(count, rest)
         case None => None
         case Some((octets, tail)) => Some((Items(octets), tail)))
    case MaybeText => if s != [] && s[0] == NULL then Some((Absent, s[1..])) else ReadText(utf8, s)
    case MaybeSigned => if s != [] && s[0] == NULL then Some((Absent, s[1..])) else ReadSigned(s)
  }

  predicate IsText(utf8: Bytes -> bool, v: Value) {
    v.Chars? && utf8(v.text) && |v.text| < TWO_64
  }

  predicate IsSigned(v: Value) {
    v.Number? && -INT_LIMIT <= v.n < INT_LIMIT
  }

  /** The value is one the field can hold. */
  predicate HasKind(utf8: Bytes -> bool, kind: Kind, v: Value) {
    match kind
    case Unsigned(limit) => v.Number? && 0 <= v.n < limit && v.n < TWO_64
    case Signed => IsSigned(v)
    case Text => IsText(utf8, v)
    case Octets => v.Items? && |v.octets| < TWO_64
    case MaybeText => v == Absent || IsText(utf8, v)
    case MaybeSigned => v == Absent || IsSigned(v)
  }

  lemma SignedReadsBack(v: Value, tail: Bytes)
    requires IsSigned(v)
    ensures ReadSigned(WriteValue(v) + tail) == Some((v, tail))
    ensures (WriteValue(v) + tail)[0] != NULL
  {
    hide ReadHead;
    if v.n >= 0 {
      HeadReadsBack(UNSIGNED, v.n, tail);
    } else {
      HeadReadsBack(NEGATIVE, -1 - v.n, tail);
    }
  }

  lemma TextReadsBack(utf8: Bytes -> bool, v: Value, tail: Bytes)
    requires IsText(utf8, v)
    ensures ReadText(utf8, WriteValue(v) + tail) == Some((v, tail))
    ensures (WriteValue(v) + tail)[0] != NULL
  {
    hide ReadString;
    StringReadsBack(TEXT, v.text, tail);
  }

  lemma FieldReadsBack(utf8: Bytes -> bool, kind: Kind, v: Value, tail: Bytes)
    requires HasKind(utf8, kind, v)
    ensures ReadField(utf8, kind, WriteValue(v) + tail) == Some((v, tail))
  {
    hide ReadHead, WriteHead, ReadValue, ReadString, WriteString, ReadSigned, ReadText, ReadOctets, WriteOctets;
    match v
    case Absent => assert ([NULL] + tail)[1..] == tail;
    case Chars(_) => TextReadsBack(utf8, v, tail);
    case Items(octets) =>
      assert WriteValue(v) + tail == WriteHead(ARRAY, |octets|) + (WriteOctets(octets) + tail);
      ValueReadsBack(ARRAY, |octets|, WriteOctets(octets) + tail);
      OctetsReadBack(octets, tail);
    case Number(n) =>
      if kind.Unsigned? {
        ValueReadsBack(UNSIGNED, n, tail);
      } else {
        SignedReadsBack(v, tail);
      }
  }

  function WriteFields(values: seq<Value>): Bytes {
    if values == [] then [] else WriteValue(values[0]) + WriteFields(values[1..])
  }

  function ReadFields(utf8: Bytes -> bool, kinds: seq<Kind>, s: Bytes): Option<(seq<Value>, Bytes)> {
    if kinds == [] then Some(([], s))
    else match ReadField(utf8, kinds[0], s)
      case None => None
      case Some((v, rest)) =>
        match ReadFields(utf8, kinds[1..], rest)
        case None => None
        case Some((more, tail)) => Some(([v] + more, tail))
  }

  ghost predicate HaveKinds(utf8: Bytes -> bool, kinds: seq<Kind>, values: seq<Value>) {
    |kinds| == |values| && forall i :: 0 <= i < |kinds| ==> HasKind(utf8, kinds[i], values[i])
  }

  lemma {:induction false} FieldsReadBack(utf8: Bytes -> bool, kinds: seq<Kind>, values: seq<Value>, tail: Bytes)
    requires HaveKinds(utf8, kinds, values)
    ensures ReadFields(utf8, kinds, WriteFields(values) + tail) == Some((values, tail))
  {
    hide ReadField, WriteValue, HasKind;
    if kinds == [] {
      assert [] + tail == tail;
    } else {
      assert WriteFields(values) + tail == WriteValue(values[0]) + (WriteFields(values[1..]) + tail);
      FieldReadsBack(utf8, kinds[0], values[0], WriteFields(values[1..]) + tail);
      FieldsReadBack(utf8, kinds[1..], values[1..], tail);
      assert values == [values[0]] + values[1..];
    }
  }

  /** Nothing is read that the field could not hold. */
  lemma {:induction false} FieldsHaveKinds(utf8: Bytes -> bool, kinds: seq<Kind>, s: Bytes)
    requires |s| < TWO_64
    requires ReadFields(utf8, kinds, s).Some?
    requires forall i :: 0 <= i < |kinds| && kinds[i].Unsigned? ==> kinds[i].limit <= TWO_64
    ensures HaveKinds(utf8, kinds, ReadFields(utf8, kinds, s).value.0)
  {
    hide ReadField, HasKind;
    if kinds != [] {
      FieldHasKind(utf8, kinds[0], s);
      FieldsHaveKinds(utf8, kinds[1..], ReadField(utf8, kinds[0], s).value.1);
    }
  }

  lemma {:induction false} OctetsCounted(count: nat, s: Bytes)
    ensures var r := ReadOctets(count, s); r.Some? ==> |r.value.0| == count && |r.value.1| + count <= |s|
  {
    hide ReadValue;
    if count > 0 && ReadValue(UNSIGNED, s).Some? {
      OctetsCounted(count - 1, ReadValue(UNSIGNED, s).value.1);
    }
  }

  lemma FieldHasKind(utf8: Bytes -> bool, kind: Kind, s: Bytes)
    requires |s| < TWO_64 && ReadField(utf8, kind, s).Some?
    requires kind.Unsigned? ==> kind.limit <= TWO_64
    ensures HasKind(utf8, kind, ReadField(utf8, kind, s).value.0)
    ensures |ReadField(utf8, kind, s).value.1| < |s|
  {
    hide ReadHead, ReadOctets;
    if kind.Octets? {
      var counted := ReadValue(ARRAY, s).value;
      OctetsCounted(counted.0, counted.1);
    }
  }
}
