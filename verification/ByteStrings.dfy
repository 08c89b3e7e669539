/** Byte strings, fixed-width integers and length prefixes.

    Every hash pre-image and every wire format of the broker is put together
    from these pieces; the lemmas say when a concatenation can be read back in
    only one way. */
module ByteStrings {
  newtype byte = x: int | 0 <= x < 256

  type Bytes = seq<byte>

  const TWO_32: nat := 0x1_0000_0000
  const TWO_64: nat := 0x1_0000_0000_0000_0000

  function Pow256(k: nat): (p: nat)
    ensures p > 0
  {
    if k == 0 then 1 else 256 * Pow256(k - 1)
  }

  lemma Pow256Values()
    ensures Pow256(1) == 256
    ensures Pow256(2) == 0x1_0000
    ensures Pow256(4) == TWO_32
    ensures Pow256(8) == TWO_64
  {
  }

  /** The low `width` bytes of `n`, most significant first (`to_be_bytes`). */
  function BigEndian(n: nat, width: nat): (s: Bytes)
    ensures |s| == width
  {
    if width == 0 then [] else BigEndian(n / 256, width - 1) + [(n % 256) as byte]
  }

  function FromBigEndian(s: Bytes): nat
  {
    if s == [] then 0 else 256 * FromBigEndian(s[..|s| - 1]) + s[|s| - 1] as nat
  }

  /** The low `width` bytes of `n`, least significant first (`to_le_bytes`). */
  function LittleEndian(n: nat, width: nat): (s: Bytes)
    ensures |s| == width
  {
    if width == 0 then [] else [(n % 256) as byte] + LittleEndian(n / 256, width - 1)
  }

  function FromLittleEndian(s: Bytes): nat
  {
    if s == [] then 0 else s[0] as nat + 256 * FromLittleEndian(s[1..])
  }

  lemma {:induction false} BigEndianValue(n: nat, width: nat)
    ensures FromBigEndian(BigEndian(n, width)) == n % Pow256(width)
  {
    if width > 0 {
      BigEndianValue(n / 256, width - 1);
      var s := BigEndian(n, width);
      assert s[..|s| - 1] == BigEndian(n / 256, width - 1);
      ModSplit(n, Pow256(width - 1));
    }
  }

  lemma {:induction false} LittleEndianValue(n: nat, width: nat)
    ensures FromLittleEndian(LittleEndian(n, width)) == n % Pow256(width)
  {
    if width > 0 {
      LittleEndianValue(n / 256, width - 1);
      ModSplit(n, Pow256(width - 1));
    }
  }

  lemma ModSplit(n: nat, p: nat)
    requires p > 0
    ensures n % (256 * p) == 256 * ((n / 256) % p) + n % 256
  {
    var q := n / 256;
    var r := 256 * (q % p) + n % 256;
    assert n == 256 * q + n % 256;
    assert q == p * (q / p) + q % p;
    assert n == (256 * p) * (q / p) + r;
    assert 0 <= r < 256 * p by {
      assert q % p <= p - 1;
    }
    DivModUnique(n, 256 * p, q / p, r);
  }

  lemma DivModUnique(n: nat, d: nat, q: nat, r: nat)
    requires d > 0 && r < d && n == d * q + r
    ensures n / d == q && n % d == r
  {
    var q' := n / d;
    var r' := n % d;
    assert n == d * q' + r';
    SameQuotient(d, q, r, q', r');
  }

  lemma SameQuotient(d: nat, q: nat, r: nat, q': nat, r': nat)
    requires d > 0 && r < d && r' < d && d * q + r == d * q' + r'
    ensures q == q' && r == r'
  {
    if q < q' {
      MulGap(d, q, q');
    } else if q > q' {
      MulGap(d, q', q);
    }
  }

  lemma MulGap(d: nat, a: nat, b: nat)
    requires a < b
    ensures d * a + d <= d * b
  {
    var k := b - a - 1;
    assert d * k >= 0;
    assert d * b == d * a + d + d * k;
  }

  lemma BigEndianInjective(m: nat, n: nat, width: nat)
    requires m < Pow256(width) && n < Pow256(width)
    requires BigEndian(m, width) == BigEndian(n, width)
    ensures m == n
  {
    BigEndianValue(m, width);
    BigEndianValue(n, width);
    SmallMod(m, Pow256(width));
    SmallMod(n, Pow256(width));
  }

  lemma SmallMod(n: nat, d: nat)
    requires n < d
    ensures n % d == n
  {
  }

  /** A value preceded by its length as eight big-endian bytes. */
  function LengthPrefixed(v: Bytes): Bytes
  {
    BigEndian(|v|, 8) + v
  }

  function LengthPrefixedAll(items: seq<Bytes>): Bytes
  {
    if items == [] then [] else LengthPrefixed(items[0]) + LengthPrefixedAll(items[1..])
  }

  ghost predicate Fits(v: Bytes) {
    |v| < TWO_64
  }

  /** Equal concatenations cut at a common length are equal piece by piece. */
  lemma SplitEqual(a: Bytes, x: Bytes, b: Bytes, y: Bytes)
    requires a + x == b + y
    requires |a| == |b|
    ensures a == b && x == y
  {
    assert a == (a + x)[..|a|] && b == (b + y)[..|b|];
    assert x == (a + x)[|a|..] && y == (b + y)[|b|..];
  }

  /** A length-prefixed value followed by anything is read back in one way. */
  lemma LengthPrefixedCancel(a: Bytes, x: Bytes, b: Bytes, y: Bytes)
    requires Fits(a) && Fits(b)
    requires LengthPrefixed(a) + x == LengthPrefixed(b) + y
    ensures a == b && x == y
  {
    hide BigEndian, Pow256;
    Pow256Values();
    assert LengthPrefixed(a) + x == BigEndian(|a|, 8) + (a + x);
    assert LengthPrefixed(b) + y == BigEndian(|b|, 8) + (b + y);
    SplitEqual(BigEndian(|a|, 8), a + x, BigEndian(|b|, 8), b + y);
    BigEndianInjective(|a|, |b|, 8);
    SplitEqual(a, x, b, y);
  }

  /** Lists of any lengths: the pre-image determines the list. */
  lemma {:induction false} LengthPrefixedAllInjective(a: seq<Bytes>, b: seq<Bytes>)
    requires forall i :: 0 <= i < |a| ==> Fits(a[i])
    requires forall i :: 0 <= i < |b| ==> Fits(b[i])
    ensures LengthPrefixedAll(a) == LengthPrefixedAll(b) <==> a == b
  {
    if LengthPrefixedAll(a) == LengthPrefixedAll(b) && a != [] && b != [] {
      LengthPrefixedCancel(a[0], LengthPrefixedAll(a[1..]), b[0], LengthPrefixedAll(b[1..]));
      LengthPrefixedAllInjective(a[1..], b[1..]);
      assert a == [a[0]] + a[1..] && b == [b[0]] + b[1..];
    }
  }

  lemma {:induction false} LengthPrefixedAllSnoc(items: seq<Bytes>, last: Bytes)
    ensures LengthPrefixedAll(items + [last]) == LengthPrefixedAll(items) + LengthPrefixed(last)
  {
    if items == [] {
      assert [last][1..] == [];
    } else {
      assert (items + [last])[1..] == items[1..] + [last];
      LengthPrefixedAllSnoc(items[1..], last);
    }
  }

  /** Part of a hash pre-image: raw bytes, or a value behind its length. */
  datatype Piece = Raw(bytes: Bytes) | Prefixed(bytes: Bytes)

  function Joined(pieces: seq<Piece>): Bytes
  {
    if pieces == [] then []
    else
      var rest := Joined(pieces[1..]);
      match pieces[0]
      case Raw(bytes) => bytes + rest
      case Prefixed(bytes) => LengthPrefixed(bytes) + rest
  }

  /** Same layout: raw pieces line up with raw pieces of the same width. */
  ghost predicate SameLayout(a: seq<Piece>, b: seq<Piece>) {
    && |a| == |b|
    && forall i :: 0 <= i < |a| ==>
         && a[i].Raw? == b[i].Raw?
         && (a[i].Raw? ==> |a[i].bytes| == |b[i].bytes|)
         && (a[i].Prefixed? ==> Fits(a[i].bytes) && Fits(b[i].bytes))
  }

  lemma {:induction false} JoinedInjective(a: seq<Piece>, b: seq<Piece>)
    requires SameLayout(a, b)
    ensures Joined(a) == Joined(b) <==> a == b
  {
    if Joined(a) == Joined(b) && a != [] {
      var restA, restB := Joined(a[1..]), Joined(b[1..]);
      if a[0].Raw? {
        SplitEqual(a[0].bytes, restA, b[0].bytes, restB);
      } else {
        LengthPrefixedCancel(a[0].bytes, restA, b[0].bytes, restB);
      }
      JoinedInjective(a[1..], b[1..]);
      assert a == [a[0]] + a[1..] && b == [b[0]] + b[1..];
    }
  }

  /** A raw piece adds nothing but its bytes. */
  lemma RawJoins(x: Bytes, rest: seq<Piece>)
    ensures Joined([Raw(x)] + rest) == x + Joined(rest)
  {
    assert ([Raw(x)] + rest)[1..] == rest;
  }

  lemma RawsJoin(x: Bytes, y: Bytes, rest: seq<Piece>)
    ensures Joined([Raw(x), Raw(y)] + rest) == x + y + Joined(rest)
  {
    assert [Raw(x), Raw(y)] + rest == [Raw(x)] + ([Raw(y)] + rest);
    RawJoins(x, [Raw(y)] + rest);
    RawJoins(y, rest);
  }

  function Ascii(text: string): (s: Bytes)
    ensures |s| == |text|
  {
    seq(|text|, i requires 0 <= i < |text| => (text[i] as int % 256) as byte)
  }
}
