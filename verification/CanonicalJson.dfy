/** The canonical JSON printer behind command hashes: a bounded form of section 3.2 of
    RFC 8785, with strings as in section 7 of RFC 8259. What is printed is defined on
    text; the printer writes the UTF-8 bytes of it. */
module CanonicalJson {
  import opened Utf8
  import opened Utf8Encoding

  datatype Option<+T> = None | Some(value: T)

  /** A decoded value. Numbers keep their literal. */
  datatype Value =
    | Null | Bool(b: bool) | Num(literal: Text) | Str(s: Text) | Arr(items: seq<Value>) | Obj(members: map<Text, Value>)

  const MAXIMUM_SAFE := 9007199254740991

  // ---------------------------------------------------------------- numbers

  predicate IsDigit(c: Rune) {
    48 <= c <= 57
  }

  function Natural(s: Text): int
    requires forall i :: 0 <= i < |s| ==> IsDigit(s[i])
  {
    if s == [] then 0 else
      var d: int := s[|s| - 1];
      10 * Natural(s[..|s| - 1]) + d - 48
  }

  predicate Digits(s: Text) {
    s != [] && forall i :: 0 <= i < |s| ==> IsDigit(s[i])
  }

  /** The literals of the JSON grammar that pass ParseInt as safe unsigned integers:
      plain decimals, and minus zero. */
  predicate NumberOk(s: Text) {
    s == [45, 48] || (Digits(s) && (s[0] == 48 ==> |s| == 1) && Natural(s) <= MAXIMUM_SAFE)
  }

  // ---------------------------------------------------------------- strings

  function Hex(d: int): Rune
    requires 0 <= d < 16
  {
    if d < 10 then 48 + d else 87 + d
  }

  function Escape(c: Rune): Text {
    if c == 34 || c == 92 then [92, c]
    else if c == 8 then [92, 98]
    else if c == 12 then [92, 102]
    else if c == 10 then [92, 110]
    else if c == 13 then [92, 114]
    else if c == 9 then [92, 116]
    else if c < 32 then [92, 117, 48, 48, Hex(c / 16), Hex(c % 16)]
    else [c]
  }

  function EscapeAll(s: Text): Text {
    if s == [] then [] else EscapeAll(s[..|s| - 1]) + Escape(s[|s| - 1])
  }

  function PrintString(s: Text): Text {
    [34] + EscapeAll(s) + [34]
  }

  // ------------------------------------------------------------------- keys

  ghost predicate Ascending(keys: seq<Text>) {
    forall i, j :: 0 <= i < j < |keys| ==> Less(keys[i], keys[j])
  }

  lemma {:induction false} LessTotal(a: Text, b: Text)
    ensures Less(a, b) || a == b || Less(b, a)
    ensures !(Less(a, b) && Less(b, a)) && !Less(a, a)
    decreases |a|
  {
    if a != [] && b != [] {
      LessTotal(a[1..], b[1..]);
      LessTotal(a[1..], a[1..]);
      if a[0] == b[0] && a[1..] == b[1..] {
        assert a == [a[0]] + a[1..] && b == [b[0]] + b[1..];
      }
    } else if a != [] {
      LessTotal(a[1..], a[1..]);
    }
  }

  lemma {:induction false} LessTransitive(a: Text, b: Text, c: Text)
    requires Less(a, b) && Less(b, c)
    ensures Less(a, c)
    decreases |a|
  {
    if a != [] && a[0] == b[0] && b[0] == c[0] { LessTransitive(a[1..], b[1..], c[1..]); }
  }

  /** Sorting leaves no choice: two ascending listings of the same keys are equal,
      whatever order the map was iterated in. */
  lemma {:induction false} OneListing(a: seq<Text>, b: seq<Text>)
    requires Ascending(a) && Ascending(b) && (forall k :: k in a <==> k in b)
    ensures a == b
    decreases |a|
  {
    if a != [] { assert a[0] in a && a[0] in b; }
    if b != [] { assert b[0] in b && b[0] in a; }
    if a != [] && b != [] {
      var i :| 0 <= i < |b| && b[i] == a[0] by { assert a[0] in b; }
      var j :| 0 <= j < |a| && a[j] == b[0] by { assert b[0] in a; }
      LessTotal(a[0], b[0]);
      assert a[0] == b[0];
      forall k ensures k in a[1..] <==> k in b[1..] {
        Behind(a, k);
        Behind(b, k);
      }
      OneListing(a[1..], b[1..]);
      assert a == [a[0]] + a[1..] && b == [b[0]] + b[1..];
    }
  }

  lemma Behind(a: seq<Text>, k: Text)
    requires Ascending(a) && a != []
    ensures k in a[1..] <==> k in a && k != a[0]
  {
    if k in a[1..] {
      var i :| 0 <= i < |a[1..]| && a[1..][i] == k;
      assert a[i + 1] == k;
      LessTotal(a[0], k);
    }
    if k in a && k != a[0] {
      var i :| 0 <= i < |a| && a[i] == k;
      assert a[1..][i - 1] == k;
    }
  }

  /** Where a new key goes. */
  method InsertKey(keys: seq<Text>, k: Text) returns (r: seq<Text>)
    requires Ascending(keys) && k !in keys
    ensures Ascending(r) && (forall x :: x in r <==> x in keys || x == k) && |r| == |keys| + 1
  {
    var i := 0;
    while i < |keys| && ByteLess(Bytes(keys[i]), Bytes(k))
      invariant 0 <= i <= |keys|
      invariant forall j :: 0 <= j < i ==> Less(keys[j], k)
    {
      OrderAgrees(keys[i], k);
      i := i + 1;
    }
    r := keys[..i] + [k] + keys[i..];
    if i < |keys| {
      OrderAgrees(keys[i], k);
      LessTotal(k, keys[i]);
      assert keys[i] in keys;
      forall j | i < j < |keys| ensures Less(k, keys[j]) {
        LessTransitive(k, keys[i], keys[j]);
      }
    }
    assert forall x :: x in keys ==> x in keys[..i] || x in keys[i..];
  }

  /** sort.Strings over the keys of a map, iterated in any order. */
  method SortKeys(keys: set<Text>) returns (r: seq<Text>)
    ensures Ascending(r) && (forall k :: k in r <==> k in keys)
  {
    r := [];
    var left := keys;
    while left != {}
      invariant left <= keys && Ascending(r)
      invariant forall k :: k in r <==> k in keys && k !in left
    {
      var k :| k in left;
      r := InsertKey(r, k);
      left := left - {k};
    }
  }

  lemma SortedKeysExist(keys: set<Text>)
    ensures exists r: seq<Text> :: Ascending(r) && (forall k :: k in r <==> k in keys)
  {
    var r := Sorted(keys);
  }

  lemma Sorted(keys: set<Text>) returns (r: seq<Text>)
    ensures Ascending(r) && (forall k :: k in r <==> k in keys)
    decreases keys
  {
    if keys == {} {
      r := [];
    } else {
      var k :| k in keys;
      var s := Sorted(keys - {k});
      r := Inserted(s, k);
    }
  }

  lemma Inserted(keys: seq<Text>, k: Text) returns (r: seq<Text>)
    requires Ascending(keys) && k !in keys
    ensures Ascending(r) && (forall x :: x in r <==> x in keys || x == k)
    decreases |keys|
  {
    if keys == [] {
      r := [k];
    } else if Less(k, keys[0]) {
      r := [k] + keys;
      forall j | 0 < j < |keys| ensures Less(k, keys[j]) { LessTransitive(k, keys[0], keys[j]); }
    } else {
      LessTotal(k, keys[0]);
      assert keys[0] in keys;
      var s := Inserted(keys[1..], k);
      r := [keys[0]] + s;
      forall j | 0 <= j < |s| ensures Less(keys[0], s[j]) {
        assert s[j] in s;
        if s[j] != k { var i :| 0 <= i < |keys[1..]| && keys[1..][i] == s[j]; }
      }
      assert keys == [keys[0]] + keys[1..];
    }
  }

  /** The keys in order. */
  ghost function SortedKeys(keys: set<Text>): (r: seq<Text>)
    ensures Ascending(r) && forall k :: k in r <==> k in keys
  {
    SortedKeysExist(keys);
    var w: seq<Text> :| Ascending(w) && (forall k :: k in w <==> k in keys);
    w
  }

  // --------------------------------------------------------------- printing

  /** Every number of the value has a literal the printer accepts. */
  predicate Printable(v: Value) {
    match v
    case Num(literal) => NumberOk(literal)
    case Arr(items) => forall i :: 0 <= i < |items| ==> Printable(items[i])
    case Obj(members) => forall k :: k in members ==> Printable(members[k])
    case _ => true
  }

  /** The printed form, as the format defines it. */
  ghost function Print(v: Value): Text
    decreases v, 1, 0
  {
    match v
    case Null => [110, 117, 108, 108]
    case Bool(b) => if b then [116, 114, 117, 101] else [102, 97, 108, 115, 101]
    case Num(literal) => literal
    case Str(s) => PrintString(s)
    case Arr(items) => [91] + PrintItems(v, 0) + [93]
    case Obj(members) => [123] + PrintMembers(v, SortedKeys(members.Keys)) + [125]
  }

  ghost function PrintItems(v: Value, i: nat): Text
    requires v.Arr? && i <= |v.items|
    decreases v, 0, |v.items| - i
  {
    if i == |v.items| then [] else (if i > 0 then [44] else []) + Print(v.items[i]) + PrintItems(v, i + 1)
  }

  ghost function PrintMember(v: Value, k: Text): Text
    requires v.Obj? && k in v.members
    decreases v, 0, 0
  {
    PrintString(k) + [58] + Print(v.members[k])
  }

  /** The members under `keys`, separated by commas. */
  ghost function PrintMembers(v: Value, keys: seq<Text>): Text
    requires v.Obj? && forall k :: k in keys ==> k in v.members
    decreases v, 0, |keys| + 1
  {
    if keys == [] then [] else
      (if |keys| > 1 then PrintMembers(v, keys[..|keys| - 1]) + [44] else []) + PrintMember(v, keys[|keys| - 1])
  }

  datatype Printed = Done(bytes: seq<Byte>) | Unsupported

  lemma EscapeNext(s: Text, i: nat)
    requires i < |s|
    ensures Bytes(EscapeAll(s[..i + 1])) == Bytes(EscapeAll(s[..i])) + Bytes(Escape(s[i]))
  {
    hide Escape, Bytes;
    assert s[..i + 1][..i] == s[..i];
    BytesConcat(EscapeAll(s[..i]), Escape(s[i]));
  }

  /** One rune as it is written: an escape, or its own bytes. */
  function RuneBytes(c: Rune): (b: seq<Byte>)
    ensures b == Bytes(Escape(c))
  {
    if Escape(c) == [c] then
      assert [c][1..] == [];
      Encode(c)
    else
      var e := Escape(c);
      var b := seq(|e|, i requires 0 <= i < |e| => Ascii(c, i); e[i] as Byte);
      BytesOfAscii(e, b);
      b
  }

  lemma Ascii(c: Rune, i: nat)
    requires Escape(c) != [c] && i < |Escape(c)|
    ensures Escape(c)[i] < 0x80
  {
  }

  lemma Quoted(s: Text)
    ensures Bytes(PrintString(s)) == [34] + Bytes(EscapeAll(s)) + [34] && Bytes(EscapeAll(s[..0])) == []
  {
    hide Bytes;
    BytesOfAscii([34], [34]);
    BytesOfAscii([], []);
    BytesConcat([34] + EscapeAll(s), [34]);
    BytesConcat([34], EscapeAll(s));
  }

  /** appendJSONString: the quoted, escaped text in bytes. */
  method AppendString(destination: seq<Byte>, s: Text) returns (r: seq<Byte>)
    ensures r == destination + Bytes(PrintString(s))
  {
    hide Escape, EscapeAll, Bytes, PrintString;
    r := destination + [34];
    Quoted(s);
    for i := 0 to |s|
      invariant r == destination + [34] + Bytes(EscapeAll(s[..i]))
    {
      EscapeNext(s, i);
      r := r + RuneBytes(s[i]);
    }
    assert s[..|s|] == s;
    r := r + [34];
  }

  lemma LiteralBytes(literal: Text)
    requires NumberOk(literal)
    ensures forall i :: 0 <= i < |literal| ==> literal[i] < 0x80
  {
  }

  /** The bytes of text that is all ASCII. */
  function AsciiBytes(s: Text): (b: seq<Byte>)
    requires forall i :: 0 <= i < |s| ==> s[i] < 0x80
    ensures b == Bytes(s)
  {
    var b := seq(|s|, i requires 0 <= i < |s| => s[i] as Byte);
    BytesOfAscii(s, b);
    b
  }

  /** appendCanonical: extends the buffer by the bytes of the printed form, and refuses
      exactly the values with a number outside the profile. */
  method AppendCanonical(destination: seq<Byte>, v: Value) returns (r: Printed)
    ensures r == if Printable(v) then Done(destination + Bytes(Print(v))) else Unsupported
    decreases v, 1
  {
    hide Bytes;
    match v
    case Null => return Done(destination + AsciiBytes([110, 117, 108, 108]));
    case Bool(b) => return Done(destination + AsciiBytes(if b then [116, 114, 117, 101] else [102, 97, 108, 115, 101]));
    case Num(literal) =>
      if !NumberOk(literal) { return Unsupported; }
      LiteralBytes(literal);
      return Done(destination + AsciiBytes(literal));
    case Str(s) =>
      var bytes := AppendString(destination, s);
      return Done(bytes);
    case Arr(_) => r := AppendItems(destination, v);
    case Obj(_) => r := AppendMembers(destination, v);
  }

  ghost function ItemsUpTo(v: Value, n: nat): Text
    requires v.Arr? && n <= |v.items|
  {
    if n == 0 then [] else ItemsUpTo(v, n - 1) + (if n > 1 then [44] else []) + Print(v.items[n - 1])
  }

  lemma ItemsNext(v: Value, i: nat)
    requires v.Arr? && i < |v.items|
    ensures Bytes(ItemsUpTo(v, i + 1)) == Bytes(ItemsUpTo(v, i)) + (if i > 0 then [44] else [])
        + Bytes(Print(v.items[i]))
  {
    hide Bytes, Print;
    var comma: Text := if i > 0 then [44] else [];
    BytesOfAscii(comma, if i > 0 then [44] else []);
    BytesConcat(ItemsUpTo(v, i) + comma, Print(v.items[i]));
    BytesConcat(ItemsUpTo(v, i), comma);
  }

  lemma {:induction false} ItemsSplit(v: Value, n: nat)
    requires v.Arr? && n <= |v.items|
    ensures ItemsUpTo(v, n) + PrintItems(v, n) == PrintItems(v, 0)
  {
    if n > 0 {
      ItemsSplit(v, n - 1);
      var sep: Text := if n > 1 then [44] else [];
      assert PrintItems(v, n - 1) == sep + Print(v.items[n - 1]) + PrintItems(v, n);
      assert ItemsUpTo(v, n) == ItemsUpTo(v, n - 1) + sep + Print(v.items[n - 1]);
    }
  }

  lemma Bracketed(open: Rune, inner: Text, close: Rune)
    requires open < 0x80 && close < 0x80
    ensures Bytes([open] + inner + [close]) == [open] + Bytes(inner) + [close]
  {
    hide Bytes;
    BytesOfAscii([open], [open]);
    BytesOfAscii([close], [close]);
    BytesConcat([open] + inner, [close]);
    BytesConcat([open], inner);
  }

  lemma ItemsWhole(v: Value)
    requires v.Arr?
    ensures Bytes(Print(v)) == [91] + Bytes(ItemsUpTo(v, |v.items|)) + [93] && Bytes(ItemsUpTo(v, 0)) == []
  {
    hide Bytes;
    ItemsSplit(v, |v.items|);
    assert PrintItems(v, |v.items|) == [];
    assert ItemsUpTo(v, |v.items|) == PrintItems(v, 0);
    Bracketed(91, ItemsUpTo(v, |v.items|), 93);
    BytesOfAscii([], []);
  }

  method AppendItems(destination: seq<Byte>, v: Value) returns (r: Printed)
    requires v.Arr?
    ensures r == if Printable(v) then Done(destination + Bytes(Print(v))) else Unsupported
    decreases v, 0
  {
    hide Print, PrintItems, NumberOk, ItemsUpTo, Bytes;
    ItemsWhole(v);
    var buffer := destination + [91];
    for i := 0 to |v.items|
      invariant buffer == destination + [91] + Bytes(ItemsUpTo(v, i))
      invariant forall j :: 0 <= j < i ==> Printable(v.items[j])
    {
      if i > 0 { buffer := buffer + [44]; }
      var next := AppendCanonical(buffer, v.items[i]);
      if next.Unsupported? { return Unsupported; }
      ItemsNext(v, i);
      buffer := next.bytes;
    }
    return Done(buffer + [93]);
  }

  method AppendMembers(destination: seq<Byte>, v: Value) returns (r: Printed)
    requires v.Obj?
    ensures r == if Printable(v) then Done(destination + Bytes(Print(v))) else Unsupported
    decreases v, 0
  {
    hide Print, PrintString, PrintMembers, Less, Ascending, Bytes, NumberOk;
    var keys := SortKeys(v.members.Keys);
    OneListing(keys, SortedKeys(v.members.Keys));
    MembersWhole(v, keys);
    var buffer := destination + [123];
    for i := 0 to |keys|
      invariant buffer == destination + [123] + Bytes(PrintMembers(v, keys[..i]))
      invariant forall j :: 0 <= j < i ==> Printable(v.members[keys[j]])
    {
      assert keys[i] in keys;
      if i > 0 { buffer := buffer + [44]; }
      buffer := AppendString(buffer, keys[i]);
      buffer := buffer + [58];
      var next := AppendCanonical(buffer, v.members[keys[i]]);
      if next.Unsupported? { return Unsupported; }
      MembersNext(v, keys, i);
      buffer := next.bytes;
    }
    assert keys[..|keys|] == keys;
    forall k | k in v.members ensures Printable(v.members[k]) {
      assert k in keys;
    }
    return Done(buffer + [125]);
  }

  lemma MembersWhole(v: Value, keys: seq<Text>)
    requires v.Obj? && keys == SortedKeys(v.members.Keys)
    ensures Bytes(Print(v)) == [123] + Bytes(PrintMembers(v, keys)) + [125] && Bytes(PrintMembers(v, keys[..0])) == []
  {
    hide Bytes;
    Bracketed(123, PrintMembers(v, keys), 125);
    BytesOfAscii([], []);
  }

  lemma MembersNext(v: Value, keys: seq<Text>, i: nat)
    requires v.Obj? && (forall k :: k in keys ==> k in v.members) && i < |keys|
    ensures Bytes(PrintMembers(v, keys[..i + 1])) ==
      Bytes(PrintMembers(v, keys[..i])) + (if i > 0 then [44] else []) + Bytes(PrintString(keys[i])) + [58]
          + Bytes(Print(v.members[keys[i]]))
  {
    hide Bytes, Print, PrintString;
    var upto := keys[..i + 1];
    assert upto[..|upto| - 1] == keys[..i];
    var before: Text := if i > 0 then PrintMembers(v, keys[..i]) + [44] else [];
    BytesOfAscii([44], [44]);
    BytesOfAscii([58], [58]);
    BytesOfAscii([], []);
    BytesConcat(PrintMembers(v, keys[..i]), [44]);
    BytesConcat(before, PrintMember(v, keys[i]));
    BytesConcat(PrintString(keys[i]) + [58], Print(v.members[keys[i]]));
    BytesConcat(PrintString(keys[i]), [58]);
  }
}
