/** Text handling of the page projection: character classes, whitespace
    collapsing, trimming, decimal numerals. */
module PageText {
  type Text = string

  /** Unicode White_Space. */
  predicate IsWhitespace(c: char) {
    var n := c as int;
    || 0x9 <= n <= 0xD || n == 0x20 || n == 0x85 || n == 0xA0 || n == 0x1680
    || 0x2000 <= n <= 0x200A || n == 0x2028 || n == 0x2029 || n == 0x202F || n == 0x205F || n == 0x3000
  }

  predicate IsControl(c: char) {
    (c as int) < 0x20 || 0x7F <= (c as int) <= 0x9F
  }

  /** Control and format characters, which are dropped: zero-width characters,
      line separators and bidirectional overrides. */
  predicate IsDropped(c: char) {
    var n := c as int;
    IsControl(c) || 0x200B <= n <= 0x200F || 0x2028 <= n <= 0x202E || 0x2066 <= n <= 0x2069
  }

  predicate IsVisible(c: char) {
    !IsWhitespace(c) && !IsDropped(c)
  }

  function LowerChar(c: char): char {
    if 'A' <= c <= 'Z' then (c as int + 32) as char else c
  }

  function Lower(s: Text): (r: Text)
    ensures |r| == |s|
  {
    if s == [] then [] else [LowerChar(s[0])] + Lower(s[1..])
  }

  function Without(s: Text, c: char): Text {
    if s == [] then [] else (if s[0] == c then [] else [s[0]]) + Without(s[1..], c)
  }

  predicate Contains(s: Text, fragment: Text) {
    fragment <= s || (s != [] && Contains(s[1..], fragment))
  }

  function TrimStart(s: Text): Text {
    if s != [] && IsWhitespace(s[0]) then TrimStart(s[1..]) else s
  }

  function TrimEnd(s: Text): Text {
    if s != [] && IsWhitespace(s[|s| - 1]) then TrimEnd(s[..|s| - 1]) else s
  }

  function Trim(s: Text): Text {
    TrimEnd(TrimStart(s))
  }

  // ------------------------------------------------------------- collapsing

  datatype Scan = Scan(out: Text, pending: bool)

  function Collapsing(s: Scan, c: char): Scan {
    if IsWhitespace(c) then Scan(s.out, s.out != [])
    else if IsDropped(c) then s
    else Scan(s.out + (if s.pending then " " else "") + [c], false)
  }

  function ScanOf(raw: Text): Scan {
    if raw == [] then Scan([], false) else Collapsing(ScanOf(raw[..|raw| - 1]), raw[|raw| - 1])
  }

  function Collapse(raw: Text): Text {
    ScanOf(raw).out
  }

  method CollapseWhitespace(raw: Text) returns (out: Text)
    ensures out == Collapse(raw)
  {
    out := [];
    var pendingSpace := false;
    for i := 0 to |raw|
      invariant Scan(out, pendingSpace) == ScanOf(raw[..i])
    {
      assert raw[..i + 1][..i] == raw[..i];
      if IsWhitespace(raw[i]) {
        pendingSpace := out != [];
        continue;
      }
      if IsDropped(raw[i]) {
        continue;
      }
      if pendingSpace {
        out := out + [' '];
        pendingSpace := false;
      }
      out := out + [raw[i]];
    }
    assert raw[..|raw|] == raw;
  }

  /** Visible characters and single spaces between them: nothing that could
      reorder or break what a reader sees. */
  ghost predicate Clean(s: Text) {
    && (forall i :: 0 <= i < |s| ==> IsVisible(s[i]) || s[i] == ' ')
    && (forall i :: 0 <= i < |s| && s[i] == ' ' ==> 0 < i < |s| - 1 && s[i - 1] != ' ')
  }

  lemma {:induction false} CollapseIsClean(raw: Text)
    ensures Clean(Collapse(raw)) && (ScanOf(raw).pending ==> Collapse(raw) != [])
  {
    if raw != [] {
      var last := |raw| - 1;
      CollapseIsClean(raw[..last]);
      var before, after := ScanOf(raw[..last]).out, Collapse(raw);
      if IsVisible(raw[last]) {
        assert forall i :: 0 <= i < |before| ==> after[i] == before[i];
      }
    }
  }

  /** Clean text is left alone, so collapsing twice is collapsing once. */
  lemma {:induction false} CleanIsFixed(s: Text)
    requires forall i :: 0 <= i < |s| ==> IsVisible(s[i]) || s[i] == ' '
    requires forall i :: 0 <= i < |s| && s[i] == ' ' ==> 0 < i && s[i - 1] != ' '
    ensures ScanOf(s) == if s != [] && s[|s| - 1] == ' ' then Scan(s[..|s| - 1], true) else Scan(s, false)
  {
    if s != [] {
      var last := |s| - 1;
      CleanIsFixed(s[..last]);
      assert s == s[..last] + [s[last]];
      if last > 0 && s[last - 1] == ' ' {
        assert s == s[..last - 1] + " " + [s[last]];
      }
    }
  }

  lemma CollapseIsIdempotent(raw: Text)
    ensures Collapse(Collapse(raw)) == Collapse(raw)
  {
    CollapseIsClean(raw);
    CleanIsFixed(Collapse(raw));
  }

  // --------------------------------------------------------------- numerals

  function Digit(d: nat): char
    requires d < 10
  {
    ('0' as int + d) as char
  }

  function Decimal(n: nat): (s: Text)
    ensures |s| > 0
    ensures forall i :: 0 <= i < |s| ==> '0' <= s[i] <= '9'
  {
    if n < 10 then [Digit(n)] else Decimal(n / 10) + [Digit(n % 10)]
  }

  lemma {:induction false} DecimalInjective(m: nat, n: nat)
    requires Decimal(m) == Decimal(n)
    ensures m == n
  {
    var s := Decimal(m);
    assert s[|s| - 1] == Digit(m % 10) && s[|s| - 1] == Digit(n % 10);
    if m >= 10 && n >= 10 {
      assert s[..|s| - 1] == Decimal(m / 10) && s[..|s| - 1] == Decimal(n / 10);
      DecimalInjective(m / 10, n / 10);
    }
  }
}
