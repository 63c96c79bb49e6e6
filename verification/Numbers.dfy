/** Decimal numbers: printing, the value of a digit string, and the accumulating parsers that saturate. */
module Numbers {
  import opened Types

  const U32_MAX: nat := 0xffff_ffff
  const U64_MAX: nat := 0xffff_ffff_ffff_ffff
  const I64_MIN: int := -0x8000_0000_0000_0000

  const BLANKS: set<Byte> := {'\n', '\r', ' '}

  /** A space or a line end. */
  predicate IsBlank(c: Byte) {
    c == ' ' || c == '\n' || c == '\r'
  }

  predicate IsDigit(c: Byte) {
    '0' <= c <= '9'
  }

  predicate AllDigits(b: Text) {
    forall k :: 0 <= k < |b| ==> IsDigit(b[k])
  }

  function Digit(c: Byte): (d: nat)
    requires IsDigit(c)
    ensures d < 10
  {
    c as int - '0' as int
  }

  function Glyph(d: nat): (c: Byte)
    requires d < 10
    ensures IsDigit(c) && Digit(c) == d
  {
    (d + '0' as int) as char
  }

  /** The number a digit string stands for. */
  function Value(b: Text): nat
    requires AllDigits(b)
  {
    if b == [] then 0 else Value(b[..|b| - 1]) * 10 + Digit(b[|b| - 1])
  }

  /** The decimal digits of a number, most significant first, without leading zeros. */
  function Decimal(v: nat): (b: Text)
    ensures b != [] && AllDigits(b)
  {
    if v < 10 then [Glyph(v)] else Decimal(v / 10) + [Glyph(v % 10)]
  }

  lemma {:induction false} ValueOfDecimal(v: nat)
    ensures Value(Decimal(v)) == v
  {
    if v < 10 {
      assert Decimal(v)[..0] == [];
    } else {
      ValueOfDecimal(v / 10);
      assert Decimal(v)[..|Decimal(v)| - 1] == Decimal(v / 10);
    }
  }

  function Power10(n: nat): (p: nat)
    ensures p >= 1
  {
    if n == 0 then 1 else 10 * Power10(n - 1)
  }

  /** A number has at most `n` digits exactly when it is below the `n`-th power of ten. */
  lemma {:induction false} DecimalLength(v: nat, n: nat)
    requires n > 0
    ensures |Decimal(v)| <= n <==> v < Power10(n)
  {
    if n == 1 {
      assert Power10(1) == 10 * Power10(0);
      if v >= 10 {
        assert |Decimal(v / 10)| >= 1;
      }
    } else if v < 10 {
      assert Power10(n) == 10 * Power10(n - 1);
    } else {
      DecimalLength(v / 10, n - 1);
      assert Power10(n) == 10 * Power10(n - 1);
    }
  }

  lemma Power20()
    ensures Power10(20) == 100_000_000_000_000_000_000
  {
    assert Power10(4) == 10_000;
    assert Power10(8) == 100_000_000;
    assert Power10(12) == 1_000_000_000_000;
    assert Power10(16) == 10_000_000_000_000_000;
  }

  /** Twenty digits hold every 64-bit number. */
  lemma DigitsOfU64(v: nat)
    requires v <= U64_MAX
    ensures |Decimal(v)| <= 20
  {
    Power20();
    DecimalLength(v, 20);
  }

  function Min(a: nat, b: nat): nat {
    if a < b then a else b
  }

  /** The length of the longest prefix of digits. */
  function DigitPrefix(b: Text): (k: nat)
    ensures k <= |b| && AllDigits(b[..k]) && (k < |b| ==> !IsDigit(b[k]))
  {
    if b == [] || !IsDigit(b[0]) then 0
    else
      var k := 1 + DigitPrefix(b[1..]);
      assert b[..k] == [b[0]] + b[1..][..k - 1];
      k
  }

  /** A character outside the digits ends the number, so the longest digit prefix is found by any scan. */
  lemma {:induction false} DigitPrefixUnique(b: Text, k: nat)
    requires k <= |b| && AllDigits(b[..k]) && (k < |b| ==> !IsDigit(b[k]))
    ensures k == DigitPrefix(b)
  {
    if k > 0 {
      assert b[0] == b[..k][0];
      assert b[1..][..k - 1] == b[..k][1..];
      DigitPrefixUnique(b[1..], k - 1);
    }
  }

  /**
   The loop shared by the numeric parsers: it reads digits up to the first other byte and accumulates with
   saturation. The result is the true value cut off at `max`, on every input.
   */
  method SaturatingPrefix(b: Text, max: nat) returns (n: nat, k: nat)
    ensures k == DigitPrefix(b)
    ensures n == Min(Value(b[..k]), max)
  {
    n, k := 0, 0;
    while k < |b| && IsDigit(b[k])
      invariant k <= |b| && AllDigits(b[..k])
      invariant n == Min(Value(b[..k]), max)
    {
      assert b[..k + 1][..k] == b[..k];
      n := Min(Min(n * 10, max) + Digit(b[k]), max);
      k := k + 1;
    }
    DigitPrefixUnique(b, k);
  }

  function TrimmedEnd(b: Text, drop: set<Byte>): (r: Text)
    ensures |r| <= |b| && r == b[..|r|]
    ensures r != [] ==> r[|r| - 1] !in drop
    ensures forall j :: |r| <= j < |b| ==> b[j] in drop
  {
    if b != [] && b[|b| - 1] in drop then TrimmedEnd(b[..|b| - 1], drop) else b
  }

  /** A text that does not end in a dropped character is not shortened. */
  lemma {:induction false} TrimmedEndKeeps(b: Text, tail: Text, drop: set<Byte>)
    requires b == [] || b[|b| - 1] !in drop
    requires forall j :: 0 <= j < |tail| ==> tail[j] in drop
    ensures TrimmedEnd(b + tail, drop) == b
    decreases |tail|
  {
    if tail == [] {
      assert b + tail == b;
    } else {
      var shorter := tail[..|tail| - 1];
      assert (b + tail)[..|b + tail| - 1] == b + shorter;
      assert (b + tail)[|b + tail| - 1] == tail[|tail| - 1];
      TrimmedEndKeeps(b, shorter, drop);
    }
  }

  /** The number that is meant, if everything before the blanks at the end is digits. */
  function Numeric(data: Text): Option<nat> {
    var t := TrimmedEnd(data, BLANKS);
    if t != [] && AllDigits(t) then Some(Min(Value(t), U32_MAX)) else None
  }

  /** `parse_numeric_or_name`: a number when everything before trailing blanks and line ends is digits. */
  method ParseNumericOrName(data: Text) returns (r: Option<nat>)
    ensures r == Numeric(data)
  {
    var end := |data|;
    while end > 0 && data[end - 1] in BLANKS
      invariant 0 <= end <= |data|
      invariant TrimmedEnd(data[..end], BLANKS) == TrimmedEnd(data, BLANKS)
    {
      assert data[..end][..end - 1] == data[..end - 1];
      end := end - 1;
    }
    assert end == |data| ==> data[..end] == data;
    assert data[..end] == TrimmedEnd(data, BLANKS);
    if end == 0 {
      return None;
    }
    var n, k := SaturatingPrefix(data[..end], U32_MAX);
    if k == end {
      assert data[..end][..k] == data[..end];
      r := Some(n);
    } else {
      assert !IsDigit(data[..end][k]);
      r := None;
    }
  }

  lemma DigitIsNoBlank(c: Byte)
    requires IsDigit(c)
    ensures c !in BLANKS
  {
  }

  /** A printed number is read back, whatever blanks and line ends follow; too large a one as the largest of 32 bits. */
  lemma NumericRoundTrip(v: nat, tail: Text)
    requires forall j :: 0 <= j < |tail| ==> IsBlank(tail[j])
    ensures Numeric(Decimal(v) + tail) == Some(if v <= 4_294_967_295 then v else 4_294_967_295)
  {
    DigitIsNoBlank(Decimal(v)[|Decimal(v)| - 1]);
    TrimmedEndKeeps(Decimal(v), tail, BLANKS);
    ValueOfDecimal(v);
    hide Decimal, TrimmedEnd, Value;
  }

  /** What is no digit string, but for blanks at its end, is a name. */
  lemma NotNumeric(data: Text, k: nat, j: nat)
    requires k <= j < |data| && !IsDigit(data[k]) && !IsBlank(data[j])
    ensures Numeric(data) == None
  {
    var t := TrimmedEnd(data, BLANKS);
    assert |t| > j;
    assert t[k] == data[k];
  }

  /** Decimal, most significant digit first. */
  lemma DecimalAsWritten()
    ensures Decimal(1024) == "1024" && Decimal(65535) == "65535" && Decimal(0) == "0"
  {
    assert Decimal(102) == "102";
    assert Decimal(655) == "655";
  }
}
