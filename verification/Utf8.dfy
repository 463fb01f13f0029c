/** Well-formed UTF-8 byte sequences, by the grammar in section 4 of RFC 3629. */
module Utf8 {
  type Byte = b: int | 0 <= b < 256

  predicate Tail(b: Byte) {
    0x80 <= b <= 0xBF
  }

  predicate Three(a: Byte, b: Byte, c: Byte) {
    && Tail(c)
    && (|| (a == 0xE0 && 0xA0 <= b <= 0xBF) || (0xE1 <= a <= 0xEC && Tail(b))
        || (a == 0xED && 0x80 <= b <= 0x9F) || (0xEE <= a <= 0xEF && Tail(b)))
  }

  predicate Four(a: Byte, b: Byte, c: Byte, d: Byte) {
    && Tail(c) && Tail(d)
    && ((a == 0xF0 && 0x90 <= b <= 0xBF) || (0xF1 <= a <= 0xF3 && Tail(b)) || (a == 0xF4 && 0x80 <= b <= 0x8F))
  }

  /** The length of the character at the front, or 0 if there is none. */
  function Width(s: seq<Byte>): (w: nat)
    ensures w <= 4 && w <= |s|
  {
    if |s| >= 1 && s[0] <= 0x7F then 1
    else if |s| >= 2 && 0xC2 <= s[0] <= 0xDF && Tail(s[1]) then 2
    else if |s| >= 3 && Three(s[0], s[1], s[2]) then 3
    else if |s| >= 4 && Four(s[0], s[1], s[2], s[3]) then 4
    else 0
  }

  predicate WellFormed(s: seq<Byte>) {
    s == [] || (Width(s) > 0 && WellFormed(s[Width(s)..]))
  }

  lemma WidthOfPrefix(s: seq<Byte>, t: seq<Byte>)
    requires Width(s) > 0
    ensures Width(s + t) == Width(s)
  {
  }

  /** After a well-formed prefix, the rest decides. */
  lemma {:induction false} Concatenation(s: seq<Byte>, t: seq<Byte>)
    requires WellFormed(s)
    ensures WellFormed(s + t) <==> WellFormed(t)
    decreases |s|
  {
    if s == [] {
      assert s + t == t;
    } else {
      WidthOfPrefix(s, t);
      var w := Width(s);
      assert (s + t)[w..] == s[w..] + t;
      Concatenation(s[w..], t);
    }
  }

  /** Every position of a well-formed sequence is at most three bytes past a
      character boundary. */
  lemma {:induction false} NearBoundary(s: seq<Byte>, k: nat) returns (j: nat)
    requires WellFormed(s) && k <= |s|
    ensures j <= k <= j + 3 && WellFormed(s[..j]) && WellFormed(s[j..])
    decreases |s|
  {
    if k < Width(s) {
      j := 0;
      assert s[..0] == [] && s[0..] == s;
    } else if s == [] {
      j := 0;
    } else {
      var w := Width(s);
      var i := NearBoundary(s[w..], k - w);
      j := w + i;
      assert s[j..] == s[w..][i..];
      assert s[..j] == s[..w] + s[w..][..i];
      WholeCharacter(s);
      Concatenation(s[..w], s[w..][..i]);
    }
  }

  lemma WholeCharacter(s: seq<Byte>)
    requires Width(s) > 0
    ensures WellFormed(s[..Width(s)])
  {
    var c := s[..Width(s)];
    assert Width(c) == |c|;
    assert c[|c|..] == [];
  }
}
