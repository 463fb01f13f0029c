/** A prefix parser for canonical text, and what its round trip says of the printer:
    equal text means equal values. */
module CanonicalParse {
  import opened Utf8
  import opened Utf8Encoding
  import opened CanonicalJson

  // ----------------------------------------------------------------- parser

  function Unhex(c: Rune): int {
    var d: int := c;
    if d <= 57 then d - 48 else d - 87
  }

  /** The characters up to the closing quote. */
  function ParseChars(t: Text): (r: Option<(Text, Text)>)
    ensures r.Some? ==> |r.value.1| < |t|
    decreases |t|
  {
    if t == [] then None
    else if t[0] == 34 then Some(([], t[1..]))
    else
      match Unescape(t)
      case None => None
      case Some((c, rest)) =>
        match ParseChars(rest)
        case None => None
        case Some((s, after)) => Some(([c] + s, after))
  }

  function Unescape(t: Text): (r: Option<(Rune, Text)>)
    requires t != []
    ensures r.Some? ==> |r.value.1| < |t|
  {
    if t[0] != 92 then Some((t[0], t[1..]))
    else if |t| < 2 then None
    else if t[1] == 34 || t[1] == 92 then Some((t[1], t[2..]))
    else if t[1] == 98 then Some((8, t[2..]))
    else if t[1] == 102 then Some((12, t[2..]))
    else if t[1] == 110 then Some((10, t[2..]))
    else if t[1] == 114 then Some((13, t[2..]))
    else if t[1] == 116 then Some((9, t[2..]))
    else if t[1] == 117 && |t| >= 6 && t[2] == 48 && t[3] == 48
        && 0 <= 16 * Unhex(t[4]) + Unhex(t[5]) < 32 then Some((16 * Unhex(t[4]) + Unhex(t[5]), t[6..]))
    else None
  }

  function DigitRun(t: Text): (n: nat)
    ensures n <= |t| && (forall i :: 0 <= i < n ==> IsDigit(t[i])) && (n < |t| ==> !IsDigit(t[n]))
  {
    if t == [] || !IsDigit(t[0]) then 0 else 1 + DigitRun(t[1..])
  }

  function ParseNumber(t: Text): (r: Option<(Text, Text)>)
    ensures r.Some? ==> |r.value.1| < |t|
  {
    var sign := if t != [] && t[0] == 45 then 1 else 0;
    var n := DigitRun(t[sign..]);
    if n == 0 then None else Some((t[..sign + n], t[sign + n..]))
  }

  function ParseValue(t: Text): (r: Option<(Value, Text)>)
    ensures r.Some? ==> |r.value.1| < |t|
    decreases |t|, 1
  {
    if t == [] then None
    else if t[0] == 110 then (if |t| >= 4 && t[..4] == [110, 117, 108, 108] then Some((Null, t[4..])) else None)
    else if t[0] == 116 then (if |t| >= 4 && t[..4] == [116, 114, 117, 101] then Some((Bool(true), t[4..])) else None)
    else if t[0] == 102 then
      if |t| >= 5 && t[..5] == [102, 97, 108, 115, 101] then Some((Bool(false), t[5..])) else None
    else if t[0] == 34 then
      match ParseChars(t[1..]) {
        case None => None
        case Some((s, rest)) => Some((Str(s), rest))
      }
    else if t[0] == 91 then
      match ParseItems(t[1..], true) {
        case None => None
        case Some((items, rest)) => Some((Arr(items), rest))
      }
    else if t[0] == 123 then
      match ParseMembers(t[1..], true) {
        case None => None
        case Some((members, rest)) => Some((Obj(members), rest))
      }
    else
      match ParseNumber(t)
      case None => None
      case Some((literal, rest)) => Some((Num(literal), rest))
  }

  /** The rest of an array; every item but the first follows a comma. */
  function ParseItems(t: Text, first: bool): (r: Option<(seq<Value>, Text)>)
    ensures r.Some? ==> |r.value.1| < |t|
    decreases |t|, 2
  {
    if t == [] then None
    else if t[0] == 93 then Some(([], t[1..]))
    else if !first && t[0] != 44 then None
    else
      match ParseValue(if first then t else t[1..])
      case None => None
      case Some((v, rest)) =>
        match ParseItems(rest, false)
        case None => None
        case Some((items, after)) => Some(([v] + items, after))
  }

  function ParsePair(t: Text): (r: Option<(Text, Value, Text)>)
    ensures r.Some? ==> |r.value.2| < |t|
    decreases |t|, 2
  {
    if t == [] || t[0] != 34 then None
    else
      match ParseChars(t[1..])
      case None => None
      case Some((k, rest)) =>
        if rest == [] || rest[0] != 58 then None
        else
          match ParseValue(rest[1..])
          case None => None
          case Some((v, after)) => Some((k, v, after))
  }

  function ParseMembers(t: Text, first: bool): (r: Option<(map<Text, Value>, Text)>)
    ensures r.Some? ==> |r.value.1| < |t|
    decreases |t|, 3
  {
    if t == [] then None
    else if t[0] == 125 then Some((map[], t[1..]))
    else if !first && t[0] != 44 then None
    else
      match ParsePair(if first then t else t[1..])
      case None => None
      case Some((k, v, rest)) =>
        match ParseMembers(rest, false)
        case None => None
        case Some((members, after)) => Some((map[k := v] + members, after))
  }

  // ------------------------------------------------------- strings, numbers

  lemma Unescapes(c: Rune, rest: Text)
    ensures Escape(c)[0] != 34 && Unescape(Escape(c) + rest) == Some((c, rest))
  {
    var e := Escape(c);
    assert (e + rest)[|e|..] == rest;
    if c < 32 && |e| == 6 {
      var d: int := c;
      assert Unhex(Hex(d / 16)) == d / 16 && Unhex(Hex(d % 16)) == d % 16;
    }
  }

  lemma {:induction false} EscapeFront(s: Text)
    requires s != []
    ensures EscapeAll(s) == Escape(s[0]) + EscapeAll(s[1..])
    decreases |s|
  {
    if |s| > 1 {
      var before := s[..|s| - 1];
      EscapeFront(before);
      assert before[1..] == s[1..][..|s| - 2];
    } else {
      assert s[..0] == [] && s[1..] == [];
    }
  }

  lemma {:induction false} CharsRoundTrip(s: Text, rest: Text)
    ensures ParseChars(EscapeAll(s) + [34] + rest) == Some((s, rest))
    decreases |s|
  {
    hide Escape, Unescape;
    if s == [] {
      assert EscapeAll(s) + [34] + rest == [34] + rest;
    } else {
      EscapeFront(s);
      var tail := EscapeAll(s[1..]) + [34] + rest;
      assert EscapeAll(s) + [34] + rest == Escape(s[0]) + tail;
      Unescapes(s[0], tail);
      CharsRoundTrip(s[1..], rest);
      assert [s[0]] + s[1..] == s;
    }
  }

  /** The text cannot continue a number. */
  predicate Stops(rest: Text) {
    rest == [] || !IsDigit(rest[0])
  }

  lemma {:induction false} DigitsRun(s: Text, rest: Text)
    requires (forall i :: 0 <= i < |s| ==> IsDigit(s[i])) && Stops(rest)
    ensures DigitRun(s + rest) == |s|
    decreases |s|
  {
    if s == [] {
      assert s + rest == rest;
    } else {
      DigitsRun(s[1..], rest);
      assert (s + rest)[1..] == s[1..] + rest;
    }
  }

  lemma NumberRoundTrip(s: Text, rest: Text)
    requires NumberOk(s) && Stops(rest)
    ensures ParseNumber(s + rest) == Some((s, rest)) && (s[0] == 45 || IsDigit(s[0]))
  {
    if s == [45, 48] {
      assert (s + rest)[1..] == [48] + rest;
      DigitsRun([48], rest);
    } else {
      assert (s + rest)[0..] == s + rest;
      DigitsRun(s, rest);
    }
    assert (s + rest)[..|s|] == s && (s + rest)[|s|..] == rest;
  }

  // -------------------------------------------------------------- structure

  /** The members after the first, each behind its comma. */
  ghost function MoreMembers(v: Value, keys: seq<Text>): Text
    requires v.Obj? && forall k :: k in keys ==> k in v.members
  {
    if keys == [] then [] else [44] + PrintMember(v, keys[0]) + MoreMembers(v, keys[1..])
  }

  lemma {:induction false} MoreSnoc(v: Value, keys: seq<Text>)
    requires v.Obj? && (forall k :: k in keys ==> k in v.members) && keys != []
    ensures MoreMembers(v, keys) == MoreMembers(v, keys[..|keys| - 1]) + [44] + PrintMember(v, keys[|keys| - 1])
    decreases |keys|
  {
    hide PrintMember;
    if |keys| > 1 {
      var rest := keys[1..];
      MoreSnoc(v, rest);
      assert rest[..|rest| - 1] == keys[..|keys| - 1][1..];
    }
  }

  lemma {:induction false} MembersFront(v: Value, keys: seq<Text>)
    requires v.Obj? && (forall k :: k in keys ==> k in v.members) && keys != []
    ensures PrintMembers(v, keys) == PrintMember(v, keys[0]) + MoreMembers(v, keys[1..])
    decreases |keys|
  {
    hide PrintMember;
    if |keys| > 1 {
      var before := keys[..|keys| - 1];
      MembersFront(v, before);
      MoreSnoc(v, keys[1..]);
      assert before[1..] == keys[1..][..|keys| - 2];
    }
  }

  /** No value starts with a bracket that closes or with a comma. */
  lemma FirstRune(v: Value)
    requires Printable(v)
    ensures Print(v) != [] && Print(v)[0] !in {44, 93, 125}
  {
    if v.Num? { NumberRoundTrip(v.literal, []); }
  }

  ghost function Restrict(m: map<Text, Value>, keys: seq<Text>): map<Text, Value>
    requires forall k :: k in keys ==> k in m
  {
    map k | k in keys :: m[k]
  }

  /** The parser recovers every printable value from its text, whatever follows, as
      long as it does not continue a number. */
  lemma {:induction false} RoundTrip(v: Value, rest: Text)
    requires Printable(v) && Stops(rest)
    ensures ParseValue(Print(v) + rest) == Some((v, rest))
    decreases v, 1, 0
  {
    hide PrintMembers, PrintMember, EscapeAll, PrintItems, NumberOk, ParseChars, ParseNumber, ParseItems,
         ParseMembers;
    var t := Print(v) + rest;
    match v
    case Arr(items) =>
      assert t[1..] == PrintItems(v, 0) + [93] + rest;
      ItemsRoundTrip(v, 0, rest);
      assert items[0..] == items;
    case Obj(members) =>
      var keys := SortedKeys(members.Keys);
      assert t[1..] == PrintMembers(v, keys) + [125] + rest;
      ObjectRoundTrip(v, keys, rest);
      assert Restrict(members, keys) == members;
    case _ => ScalarRoundTrip(v, rest);
  }

  lemma ScalarRoundTrip(v: Value, rest: Text)
    requires Printable(v) && Stops(rest) && !v.Arr? && !v.Obj?
    ensures ParseValue(Print(v) + rest) == Some((v, rest))
  {
    hide EscapeAll, ParseChars, ParseNumber, ParseItems, ParseMembers;
    var p := Print(v);
    var t := p + rest;
    assert t[..|p|] == p && t[|p|..] == rest;
    if v.Num? {
      NumberRoundTrip(v.literal, rest);
    } else if v.Str? {
      assert t[1..] == EscapeAll(v.s) + [34] + rest;
      CharsRoundTrip(v.s, rest);
    }
  }

  lemma {:induction false} ItemsRoundTrip(v: Value, i: nat, rest: Text)
    requires v.Arr? && Printable(v) && i <= |v.items|
    ensures ParseItems(PrintItems(v, i) + [93] + rest, i == 0) == Some((v.items[i..], rest))
    decreases v, 0, |v.items| - i
  {
    hide Print, ParseValue;
    var t := PrintItems(v, i) + [93] + rest;
    if i == |v.items| {
      assert t == [93] + rest;
    } else {
      var item := v.items[i];
      var after := PrintItems(v, i + 1) + [93] + rest;
      FirstRune(item);
      if i == 0 {
        assert t == Print(item) + after;
      } else {
        assert t == [44] + (Print(item) + after);
        assert t[1..] == Print(item) + after;
      }
      assert Stops(after) by { assert i + 1 < |v.items| ==> PrintItems(v, i + 1)[0] == 44; }
      RoundTrip(item, after);
      ItemsRoundTrip(v, i + 1, rest);
      assert v.items[i..] == [item] + v.items[i + 1..];
    }
  }

  lemma {:induction false} PairRoundTrip(v: Value, k: Text, rest: Text)
    requires v.Obj? && Printable(v) && k in v.members && Stops(rest)
    ensures ParsePair(PrintMember(v, k) + rest) == Some((k, v.members[k], rest)) && PrintMember(v, k)[0] == 34
    decreases v, 0, 0
  {
    hide EscapeAll, Print;
    var t := PrintMember(v, k) + rest;
    var value := [58] + Print(v.members[k]) + rest;
    assert t[1..] == EscapeAll(k) + [34] + value;
    CharsRoundTrip(k, value);
    assert value[1..] == Print(v.members[k]) + rest;
    RoundTrip(v.members[k], rest);
  }

  lemma {:induction false} MoreRoundTrip(v: Value, keys: seq<Text>, rest: Text)
    requires v.Obj? && Printable(v) && (forall k :: k in keys ==> k in v.members)
    ensures ParseMembers(MoreMembers(v, keys) + [125] + rest, false) == Some((Restrict(v.members, keys), rest))
    decreases v, 0, |keys| + 1
  {
    hide PrintMember;
    var t := MoreMembers(v, keys) + [125] + rest;
    if keys == [] {
      assert t == [125] + rest;
      assert Restrict(v.members, keys) == map[];
    } else {
      var after := MoreMembers(v, keys[1..]) + [125] + rest;
      assert t == [44] + (PrintMember(v, keys[0]) + after);
      assert t[1..] == PrintMember(v, keys[0]) + after;
      PairRoundTrip(v, keys[0], after);
      MoreRoundTrip(v, keys[1..], rest);
      assert Restrict(v.members, keys) == map[keys[0] := v.members[keys[0]]] + Restrict(v.members, keys[1..]);
    }
  }

  lemma {:induction false} ObjectRoundTrip(v: Value, keys: seq<Text>, rest: Text)
    requires v.Obj? && Printable(v) && (forall k :: k in keys ==> k in v.members)
    ensures ParseMembers(PrintMembers(v, keys) + [125] + rest, true) == Some((Restrict(v.members, keys), rest))
    decreases v, 0, |keys| + 2
  {
    hide PrintMember;
    var t := PrintMembers(v, keys) + [125] + rest;
    if keys == [] {
      assert t == [125] + rest;
      assert Restrict(v.members, keys) == map[];
    } else {
      MembersFront(v, keys);
      var after := MoreMembers(v, keys[1..]) + [125] + rest;
      assert t == PrintMember(v, keys[0]) + after;
      PairRoundTrip(v, keys[0], after);
      MoreRoundTrip(v, keys[1..], rest);
      assert Restrict(v.members, keys) == map[keys[0] := v.members[keys[0]]] + Restrict(v.members, keys[1..]);
    }
  }

  // --------------------------------------------------------------- theorems

  /** Equal canonical text means equal values, even when either is followed by more. */
  lemma PrintingInjective(a: Value, b: Value, x: Text, y: Text)
    requires Printable(a) && Printable(b) && Stops(x) && Stops(y) && Print(a) + x == Print(b) + y
    ensures a == b && x == y
  {
    RoundTrip(a, x);
    RoundTrip(b, y);
  }

  /** Equal canonical bytes, and so equal inputs of the command hash, mean equal
      values. */
  lemma CanonicalBytesInjective(a: Value, b: Value)
    requires Printable(a) && Printable(b) && Bytes(Print(a)) == Bytes(Print(b))
    ensures a == b
  {
    BytesInjective(Print(a), Print(b));
    PrintingInjective(a, b, [], []);
  }

  /** The printer and the hash see only well-formed UTF-8, and list the members of an
      object in the order of their bytes. */
  lemma CanonicalBytesOrdered(v: Value, i: nat, j: nat)
    requires v.Obj? && i < j < |SortedKeys(v.members.Keys)|
    ensures WellFormed(Bytes(Print(v)))
    ensures var keys := SortedKeys(v.members.Keys); ByteLess(Bytes(keys[i]), Bytes(keys[j]))
  {
    hide Bytes, Print, WellFormed, ByteLess;
    BytesWellFormed(Print(v));
    var keys := SortedKeys(v.members.Keys);
    OrderAgrees(keys[i], keys[j]);
  }

  /** Canonical text parses to a value whose canonical text it is. */
  lemma Recanonical(v: Value)
    requires Printable(v)
    ensures ParseValue(Print(v)) == Some((v, [])) && Print(ParseValue(Print(v)).value.0) == Print(v)
  {
    RoundTrip(v, []);
    assert Print(v) + [] == Print(v);
  }
}
