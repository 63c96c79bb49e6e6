/** `CStrBuf`: a bounded, NUL-terminated byte buffer that silently drops NULs and what does not fit. */
module Paths {
  import opened Types
  import opened Numbers

  function NonZero(b: Text): (r: Text)
    ensures '\0' !in r && |r| <= |b|
    ensures '\0' !in b ==> r == b
  {
    if b == [] then []
    else if b[0] == '\0' then NonZero(b[1..])
    else [b[0]] + NonZero(b[1..])
  }

  lemma {:induction false} NonZeroConcat(a: Text, b: Text)
    ensures NonZero(a + b) == NonZero(a) + NonZero(b)
  {
    if a == [] {
      assert a + b == b;
    } else {
      assert (a + b)[1..] == a[1..] + b;
      NonZeroConcat(a[1..], b);
    }
  }

  function Take(b: Text, n: nat): (r: Text)
    ensures |r| <= n && r <= b && (|b| <= n ==> r == b) && (|b| >= n ==> |r| == n)
  {
    if |b| <= n then b else b[..n]
  }

  /** What a buffer holds after `b` has been pushed into an empty one: its first 1023 non-zero bytes. */
  function Packed(b: Text): (r: Text)
    ensures |r| < PATH_BUF && '\0' !in r
  {
    Take(NonZero(b), PATH_BUF - 1)
  }

  lemma PackedFits(b: Text)
    requires '\0' !in b && |b| < PATH_BUF
    ensures Packed(b) == b
  {
  }

  /** Pushing in pieces loses no more and keeps no more than pushing the whole. */
  lemma PackedConcat(a: Text, b: Text)
    ensures Packed(Packed(a) + b) == Packed(a + b)
  {
    NonZeroConcat(Packed(a), b);
    NonZeroConcat(a, b);
    var x, y := NonZero(a), NonZero(b);
    if |x| >= PATH_BUF {
      assert (x + y)[..PATH_BUF - 1] == x[..PATH_BUF - 1];
      assert (x[..PATH_BUF - 1] + y)[..PATH_BUF - 1] == x[..PATH_BUF - 1];
    }
  }

  /** A name as a directory listing shows it. */
  predicate Slashless(name: Text) {
    '/' !in name && '\0' !in name
  }

  type FileName = name: Text | Slashless(name) witness []

  /** The directory called `name` in `root`. */
  function DirOf(root: Text, name: Text): Text {
    Packed(root + "/" + name)
  }

  function Concat(parts: seq<Text>): Text {
    if parts == [] then [] else Concat(parts[..|parts| - 1]) + parts[|parts| - 1]
  }

  /** The content of a buffer that held `b` after each of `parts` has been pushed in turn. */
  function Pushed(b: Text, parts: seq<Text>): Text {
    if parts == [] then b else Packed(Pushed(b, parts[..|parts| - 1]) + parts[|parts| - 1])
  }

  /** Any sequence of pushes keeps the first 1023 non-zero bytes of everything pushed. */
  lemma {:induction false} PushesPack(parts: seq<Text>)
    ensures Pushed([], parts) == Packed(Concat(parts))
    ensures Pushed([], parts) == Take(NonZero(Concat(parts)), 1023)
  {
    if parts == [] {
      assert Packed([]) == [];
    } else {
      PushesPack(parts[..|parts| - 1]);
      PackedConcat(Concat(parts[..|parts| - 1]), parts[|parts| - 1]);
    }
  }

  class CStrBuf {
    const buf: array<Byte>
    var len: nat

    /** Terminated, and no NUL before the end. */
    ghost predicate Valid()
      reads this, buf
    {
      buf.Length == PATH_BUF && len < PATH_BUF && buf[len] == '\0' && '\0' !in buf[..len]
    }

    function Bytes(): Text
      requires Valid()
      reads this, buf
    {
      buf[..len]
    }

    constructor ()
      ensures Valid() && fresh(buf) && Bytes() == [] == Packed([])
    {
      buf := new Byte[PATH_BUF](_ => '\0');
      len := 0;
    }

    method PushByte(c: Byte)
      requires Valid()
      modifies this`len, buf
      ensures Valid() && Bytes() == Packed(old(Bytes()) + [c])
    {
      NonZeroConcat(Bytes(), [c]);
      if c == '\0' {
        return;
      }
      if len + 1 < PATH_BUF {
        buf[len] := c;
        len := len + 1;
        buf[len] := '\0';
        assert buf[..len] == old(buf[..len]) + [c];
      }
    }

    lemma AlreadyPacked()
      requires Valid()
      ensures Packed(Bytes()) == Bytes()
    {
      PackedFits(Bytes());
    }

    method Push(b: Text)
      requires Valid()
      modifies this`len, buf
      ensures Valid() && Bytes() == Packed(old(Bytes()) + b)
    {
      hide Packed;
      ghost var was := Bytes();
      AlreadyPacked();
      assert was + b[..0] == was;
      for k := 0 to |b|
        invariant Valid() && Bytes() == Packed(was + b[..k])
      {
        PushByte(b[k]);
        OneMore(was, b, k);
      }
      assert b[..|b|] == b;
    }

    /** The digits are collected in reverse in 20 bytes, which is always enough. */
    method ReversedDigits(v: nat) returns (tmp: array<Byte>, n: nat)
      requires 0 < v <= U64_MAX
      ensures fresh(tmp) && n == |Decimal(v)| <= tmp.Length
      ensures forall j :: 0 <= j < n ==> tmp[j] == Decimal(v)[n - 1 - j]
    {
      tmp := new Byte[20](_ => '\0');
      n := 0;
      var rest := v;
      DigitsOfU64(v);
      while rest > 0
        invariant n <= |Decimal(v)|
        invariant if rest > 0 then n < |Decimal(v)| && Decimal(rest) == Decimal(v)[..|Decimal(v)| - n]
                  else n == |Decimal(v)|
        invariant forall j :: 0 <= j < n ==> tmp[j] == Decimal(v)[|Decimal(v)| - 1 - j]
      {
        assert Decimal(rest)[|Decimal(rest)| - 1] == Glyph(rest % 10);
        tmp[n] := ('0' as int + rest % 10) as char;
        assert rest >= 10 ==> Decimal(rest / 10) == Decimal(rest)[..|Decimal(rest)| - 1];
        rest := rest / 10;
        n := n + 1;
      }
    }

    /** `push_u64`. */
    method PushU64(v: nat)
      requires Valid() && v <= U64_MAX
      modifies this`len, buf
      ensures Valid() && Bytes() == Packed(old(Bytes()) + Decimal(v))
    {
      if v == 0 {
        assert Decimal(0) == ['0'];
        PushByte('0');
        return;
      }
      var tmp, n := ReversedDigits(v);
      PushReversed(tmp, n, Decimal(v));
    }

    /** The digits are pushed most significant first. */
    method PushReversed(tmp: array<Byte>, count: nat, ghost d: Text)
      requires Valid() && tmp != buf && count == |d| <= tmp.Length
      requires forall j :: 0 <= j < count ==> tmp[j] == d[count - 1 - j]
      modifies this`len, buf
      ensures Valid() && Bytes() == Packed(old(Bytes()) + d)
    {
      hide Packed;
      ghost var was := Bytes();
      AlreadyPacked();
      var n := count;
      assert was + d[..0] == was;
      while n > 0
        invariant 0 <= n <= count && Valid() && Bytes() == Packed(was + d[..count - n])
        invariant forall j :: 0 <= j < count ==> tmp[j] == d[count - 1 - j]
      {
        n := n - 1;
        PushByte(tmp[n]);
        OneMore(was, d, count - 1 - n);
      }
      assert d[..count] == d;
    }

    static lemma OneMore(was: Text, d: Text, k: nat)
      requires k < |d|
      ensures Packed(Packed(was + d[..k]) + [d[k]]) == Packed(was + d[..k + 1])
    {
      hide Packed;
      PackedConcat(was + d[..k], [d[k]]);
      assert was + d[..k] + [d[k]] == was + d[..k + 1];
    }

    /** `push_i64`. */
    method PushI64(v: int)
      requires Valid() && I64_MIN <= v <= NEVER
      modifies this`len, buf
      ensures Valid() && Bytes() == Packed(old(Bytes()) + if v < 0 then "-" + Decimal(-v) else Decimal(v))
    {
      hide Packed, Decimal;
      if v < 0 {
        PushByte('-');
        PackedConcat(old(Bytes()) + "-", Decimal(-v));
        assert old(Bytes()) + "-" + Decimal(-v) == old(Bytes()) + ("-" + Decimal(-v));
        if v == I64_MIN {
          PushU64(9223372036854775808);
        } else {
          PushU64(-v);
        }
      } else {
        PushU64(v);
      }
    }
  }
}
