/** Text as a sequence of Unicode scalar values, its UTF-8 bytes, and the order of
    both, by sections 1 and 3 of RFC 3629. */
module Utf8Encoding {
  import opened Utf8

  type Rune = c: int | 0 <= c < 0xD800 || 0xE000 <= c <= 0x10FFFF

  type Text = seq<Rune>

  function Encode(c: Rune): (b: seq<Byte>)
    ensures 1 <= |b| <= 4
  {
    var n: int := c;
    if n < 0x80 then [n]
    else if n < 0x800 then [0xC0 + n / 64, 0x80 + n % 64]
    else if n < 0x10000 then [0xE0 + n / 4096, 0x80 + n / 64 % 64, 0x80 + n % 64]
    else [0xF0 + n / 262144, 0x80 + n / 4096 % 64, 0x80 + n / 64 % 64, 0x80 + n % 64]
  }

  function Bytes(s: Text): seq<Byte> {
    if s == [] then [] else Encode(s[0]) + Bytes(s[1..])
  }

  lemma ThreeDigits(n: int)
    requires 0x800 <= n < 0xD800 || 0xE000 <= n < 0x10000
    ensures 0 <= n / 4096 <= 15 && (n / 4096 == 0 ==> n / 64 % 64 >= 32) && (n / 4096 == 13 ==> n / 64 % 64 < 32)
  {
    var m := n / 64;
    assert n / 4096 == m / 64 && (0x20 <= m < 0x360 || 0x380 <= m < 0x400);
  }

  lemma FourDigits(n: int)
    requires 0x10000 <= n <= 0x10FFFF
    ensures 0 <= n / 262144 <= 4 && (n / 262144 == 0 ==> n / 4096 % 64 >= 16)
    ensures (n / 262144 == 4 ==> n / 4096 % 64 < 16)
  {
    var m := n / 4096;
    assert n / 262144 == m / 64 && 16 <= m <= 0x10F;
  }

  lemma EncodeWidth(c: Rune)
    ensures Width(Encode(c)) == |Encode(c)|
  {
    var n: int := c;
    var b := Encode(c);
    if n < 0x80 {
      assert b == [n];
    } else if n < 0x800 {
      assert b[0] == 0xC0 + n / 64 && b[1] == 0x80 + n % 64;
    } else if n < 0x10000 {
      ThreeDigits(n);
      assert Three(b[0], b[1], b[2]);
    } else {
      FourDigits(n);
      assert Four(b[0], b[1], b[2], b[3]);
    }
  }

  // ------------------------------------------------------------- round trips

  lemma EncodeInjective(a: Rune, b: Rune)
    requires Encode(a) == Encode(b)
    ensures a == b
  {
    SixBits(a);
    SixBits(b);
  }

  /** A number from its digits to the base 64. */
  lemma SixBits(c: Rune)
    ensures var n: int := c; n == 262144 * (n / 262144) + 4096 * (n / 4096 % 64) + 64 * (n / 64 % 64) + n % 64
    ensures var n: int := c; n / 4096 == 64 * (n / 262144) + n / 4096 % 64 && n / 64 == 64 * (n / 4096) + n / 64 % 64
  {
  }

  /** No encoding is the beginning of another. */
  lemma PrefixFree(a: Rune, b: Rune, x: seq<Byte>, y: seq<Byte>)
    requires Encode(a) + x == Encode(b) + y
    ensures a == b && x == y
  {
    hide Encode;
    EncodeWidth(a);
    EncodeWidth(b);
    WidthOfPrefix(Encode(a), x);
    WidthOfPrefix(Encode(b), y);
    assert (Encode(a) + x)[..|Encode(a)|] == Encode(a) && (Encode(b) + y)[..|Encode(b)|] == Encode(b);
    EncodeInjective(a, b);
    assert (Encode(a) + x)[|Encode(a)|..] == x && (Encode(b) + y)[|Encode(b)|..] == y;
  }

  lemma {:induction false} BytesInjective(s: Text, t: Text)
    requires Bytes(s) == Bytes(t)
    ensures s == t
    decreases |s|
  {
    hide Encode;
    if s != [] && t != [] {
      PrefixFree(s[0], t[0], Bytes(s[1..]), Bytes(t[1..]));
      BytesInjective(s[1..], t[1..]);
      assert s == [s[0]] + s[1..] && t == [t[0]] + t[1..];
    }
  }

  lemma {:induction false} BytesWellFormed(s: Text)
    ensures WellFormed(Bytes(s))
    decreases |s|
  {
    hide Encode;
    if s != [] {
      BytesWellFormed(s[1..]);
      EncodeWidth(s[0]);
      WidthOfPrefix(Encode(s[0]), Bytes(s[1..]));
      assert (Encode(s[0]) + Bytes(s[1..]))[|Encode(s[0])|..] == Bytes(s[1..]);
    }
  }

  lemma {:induction false} BytesConcat(s: Text, t: Text)
    ensures Bytes(s + t) == Bytes(s) + Bytes(t)
    decreases |s|
  {
    hide Encode;
    if s == [] {
      assert s + t == t;
    } else {
      BytesConcat(s[1..], t);
      assert (s + t)[1..] == s[1..] + t;
    }
  }

  lemma {:induction false} BytesOfAscii(s: Text, b: seq<Byte>)
    requires |s| == |b| && forall i :: 0 <= i < |s| ==> s[i] == b[i] && b[i] < 0x80
    ensures Bytes(s) == b
    decreases |s|
  {
    if s != [] {
      BytesOfAscii(s[1..], b[1..]);
      assert b == [b[0]] + b[1..];
    }
  }

  // ------------------------------------------------------------------ order

  predicate Less(a: Text, b: Text)
    decreases |a|
  {
    b != [] && (a == [] || a[0] < b[0] || (a[0] == b[0] && Less(a[1..], b[1..])))
  }

  /** Bytewise order, as Go compares strings. */
  predicate ByteLess(a: seq<Byte>, b: seq<Byte>)
    decreases |a|
  {
    b != [] && (a == [] || a[0] < b[0] || (a[0] == b[0] && ByteLess(a[1..], b[1..])))
  }

  lemma {:induction false} CommonFront(p: seq<Byte>, x: seq<Byte>, y: seq<Byte>)
    ensures ByteLess(p + x, p + y) <==> ByteLess(x, y)
    decreases |p|
  {
    if p == [] {
      assert p + x == x && p + y == y;
    } else {
      CommonFront(p[1..], x, y);
      assert (p + x)[1..] == p[1..] + x && (p + y)[1..] == p[1..] + y;
    }
  }

  lemma {:induction false} ByteLessOnce(a: seq<Byte>, b: seq<Byte>)
    ensures !(ByteLess(a, b) && ByteLess(b, a))
    decreases |a|
  {
    if a != [] && b != [] { ByteLessOnce(a[1..], b[1..]); }
  }

  /** The first byte in which two encodings differ. */
  lemma FirstDifference(p: seq<Byte>, q: seq<Byte>, i: nat, x: seq<Byte>, y: seq<Byte>)
    requires i < |p| && i < |q| && p[..i] == q[..i] && p[i] < q[i]
    ensures ByteLess(p + x, q + y)
  {
    assert p + x == p[..i] + (p[i..] + x) && q + y == p[..i] + (q[i..] + y);
    CommonFront(p[..i], p[i..] + x, q[i..] + y);
  }

  lemma Longer(a: Rune, b: Rune)
    requires a < b && |Encode(a)| != |Encode(b)|
    ensures Encode(a)[0] < Encode(b)[0]
  {
  }

  lemma EncodeOrder(a: Rune, b: Rune) returns (i: nat)
    requires a < b
    ensures i < |Encode(a)| && i < |Encode(b)| && Encode(a)[..i] == Encode(b)[..i] && Encode(a)[i] < Encode(b)[i]
  {
    var p, q := Encode(a), Encode(b);
    i := 0;
    if |p| == |q| {
      SixBits(a);
      SixBits(b);
      i := if p[0] != q[0] then 0 else if p[1] != q[1] then 1 else if p[2] != q[2] then 2 else 3;
    } else {
      Longer(a, b);
    }
  }

  /** Code point order is byte order. */
  lemma {:induction false} OrderAgrees(s: Text, t: Text)
    ensures Less(s, t) <==> ByteLess(Bytes(s), Bytes(t))
    decreases |s|
  {
    hide Encode;
    if s != [] && t != [] {
      var x, y := Bytes(s[1..]), Bytes(t[1..]);
      if s[0] == t[0] {
        OrderAgrees(s[1..], t[1..]);
        CommonFront(Encode(s[0]), x, y);
      } else if s[0] < t[0] {
        var i := EncodeOrder(s[0], t[0]);
        FirstDifference(Encode(s[0]), Encode(t[0]), i, x, y);
      } else {
        var i := EncodeOrder(t[0], s[0]);
        FirstDifference(Encode(t[0]), Encode(s[0]), i, y, x);
        ByteLessOnce(Bytes(s), Bytes(t));
      }
    }
  }
}
