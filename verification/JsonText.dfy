/** Text below the level of trees: UTF-8 output, UTF-16 key order, and string escaping. */
module JsonText {
  import opened Errors
  import opened Sorting

  type Byte = b: int | 0 <= b < 256

  // ---------------------------------------------------------------- UTF-8

  /** One rune: six bits to each continuation byte, the rest with the length mark in the first. */
  function EncodeRune(c: char): seq<Byte> {
    var r := c as int;
    if r < 0x80 then [r] else
    var q := r / 0x40;
    if r < 0x800 then [0xC0 + q, 0x80 + r % 0x40] else
    var p := q / 0x40;
    if r < 0x10000 then [0xE0 + p, 0x80 + q % 0x40, 0x80 + r % 0x40]
    else [0xF0 + p / 0x40, 0x80 + p % 0x40, 0x80 + q % 0x40, 0x80 + r % 0x40]
  }

  function Utf8(s: string): seq<Byte> { if s == "" then [] else EncodeRune(s[0]) + Utf8(s[1..]) }

  /** Bytes of the first rune, read off its first byte. */
  function Width(head: Byte): nat { if head < 0x80 then 1 else if head < 0xE0 then 2 else if head < 0xF0 then 3 else 4 }

  function Value(b: seq<int>): int {
    if |b| == 1 then b[0]
    else if |b| == 2 then (b[0] - 0xC0) * 0x40 + (b[1] - 0x80)
    else if |b| == 3 then ((b[0] - 0xE0) * 0x40 + (b[1] - 0x80)) * 0x40 + (b[2] - 0x80)
    else if |b| == 4 then (((b[0] - 0xF0) * 0x40 + (b[1] - 0x80)) * 0x40 + (b[2] - 0x80)) * 0x40 + (b[3] - 0x80)
    else -1
  }

  /** The encoding can be read back, is the shortest one, and marks every byte after the first as a continuation. */
  lemma RuneRoundTrip(c: char)
    ensures |EncodeRune(c)| == Width(EncodeRune(c)[0]) && Value(EncodeRune(c)) == c as int
    ensures |EncodeRune(c)| == if c as int < 0x80 then 1 else if c as int < 0x800 then 2 else if c as int < 0x10000 then 3 else 4
    ensures forall i :: 1 <= i < |EncodeRune(c)| ==> 0x80 <= EncodeRune(c)[i] < 0xC0
  {}

  lemma RuneInjective(c: char, d: char, u: seq<Byte>, v: seq<Byte>)
    requires EncodeRune(c) + u == EncodeRune(d) + v
    ensures c == d && u == v
  {
    hide EncodeRune, Value;
    RuneRoundTrip(c);
    RuneRoundTrip(d);
    var x, y := EncodeRune(c), EncodeRune(d);
    assert (x + u)[0] == (y + v)[0];
    assert x == (x + u)[..|x|] == (y + v)[..|y|] == y;
    assert u == (x + u)[|x|..] == (y + v)[|y|..] == v;
  }

  lemma {:induction false} Utf8Injective(a: string, b: string)
    ensures Utf8(a) == Utf8(b) <==> a == b
    decreases |a|
  {
    hide EncodeRune;
    if Utf8(a) == Utf8(b) {
      if a == "" || b == "" {
        if a != "" { RuneRoundTrip(a[0]); }
        if b != "" { RuneRoundTrip(b[0]); }
      } else {
        RuneInjective(a[0], b[0], Utf8(a[1..]), Utf8(b[1..]));
        Utf8Injective(a[1..], b[1..]);
      }
    }
  }

  lemma {:induction false} Utf8Concat(a: string, b: string)
    ensures Utf8(a + b) == Utf8(a) + Utf8(b)
    decreases |a|
  {
    hide EncodeRune;
    if a == "" {
      assert a + b == b;
    } else {
      Utf8Concat(a[1..], b);
      assert (a + b)[0] == a[0] && (a + b)[1..] == a[1..] + b;
    }
  }

  // ---------------------------------------------------------------- UTF-16 key order

  function Units(c: char): seq<nat> {
    var r := c as int;
    if r < 0x10000 then [r] else [0xD800 + (r - 0x10000) / 0x400, 0xDC00 + (r - 0x10000) % 0x400]
  }

  /** One unit for the basic plane, and otherwise a high and a low surrogate that give the scalar value back. */
  lemma UnitsDecode(c: char)
    ensures c as int < 0x10000 ==> Units(c) == [c as int]
    ensures 0x10000 <= c as int ==>
              && |Units(c)| == 2 && 0xD800 <= Units(c)[0] < 0xDC00 && 0xDC00 <= Units(c)[1] < 0xE000
              && 0x10000 + (Units(c)[0] - 0xD800) * 0x400 + (Units(c)[1] - 0xDC00) == c as int
  {}

  function Utf16(s: string): seq<nat> { if s == "" then [] else Units(s[0]) + Utf16(s[1..]) }

  lemma UnitsInjective(c: char, d: char, u: seq<nat>, v: seq<nat>)
    requires Units(c) + u == Units(d) + v
    ensures c == d && u == v
  {
    var x, y := Units(c), Units(d);
    assert (x + u)[0] == (y + v)[0];
    assert |x| == |y|;
    assert x == (x + u)[..|x|] == (y + v)[..|y|] == y;
    assert u == (x + u)[|x|..] == (y + v)[|y|..] == v;
  }

  lemma {:induction false} Utf16Injective(a: string, b: string)
    requires Utf16(a) == Utf16(b)
    ensures a == b
    decreases |a|
  {
    if a != "" && b != "" {
      UnitsInjective(a[0], b[0], Utf16(a[1..]), Utf16(b[1..]));
      Utf16Injective(a[1..], b[1..]);
    }
  }

  /** Lexicographic comparison: negative, zero or positive. */
  function CompareUnits(a: seq<nat>, b: seq<nat>): int
    decreases |a|
  {
    if a == [] then (if b == [] then 0 else -1)
    else if b == [] then 1
    else if a[0] != b[0] then (if a[0] < b[0] then -1 else 1)
    else CompareUnits(a[1..], b[1..])
  }

  function CompareKeys(a: string, b: string): int { CompareUnits(Utf16(a), Utf16(b)) }

  /** The comparison loop over code units. */
  method CompareKeysLoop(a: string, b: string) returns (r: int)
    ensures r == CompareKeys(a, b)
  {
    var x, y := Utf16(a), Utf16(b);
    var i := 0;
    assert x[0..] == x && y[0..] == y;
    while i < |x| && i < |y|
      invariant 0 <= i <= |x| && i <= |y|
      invariant CompareUnits(x[i..], y[i..]) == CompareUnits(x, y)
    {
      if x[i] < y[i] {
        return -1;
      }
      if x[i] > y[i] {
        return 1;
      }
      assert x[i..][1..] == x[i + 1..] && y[i..][1..] == y[i + 1..];
      i := i + 1;
    }
    r := if |x| < |y| then -1 else if |x| > |y| then 1 else 0;
  }

  predicate KeyLeq(a: string, b: string) { CompareKeys(a, b) <= 0 }

  lemma {:induction false} CompareZero(a: seq<nat>, b: seq<nat>)
    ensures CompareUnits(a, b) == 0 <==> a == b
    decreases |a|
  {
    if a != [] && b != [] {
      CompareZero(a[1..], b[1..]);
      assert a == [a[0]] + a[1..] && b == [b[0]] + b[1..];
    }
  }

  lemma {:induction false} CompareFlips(a: seq<nat>, b: seq<nat>)
    ensures CompareUnits(a, b) == -CompareUnits(b, a)
    decreases |a|
  {
    if a != [] && b != [] { CompareFlips(a[1..], b[1..]); }
  }

  lemma {:induction false} CompareTrans(a: seq<nat>, b: seq<nat>, c: seq<nat>)
    requires CompareUnits(a, b) <= 0 && CompareUnits(b, c) <= 0
    ensures CompareUnits(a, c) <= 0
    decreases |a|
  {
    if a != [] && b != [] && c != [] && a[0] == b[0] == c[0] { CompareTrans(a[1..], b[1..], c[1..]); }
  }

  /** Keys are totally ordered, and only equal keys compare as equal. */
  lemma KeyOrder()
    ensures TotalOrder(KeyLeq) && forall a, b :: CompareKeys(a, b) == 0 <==> a == b
  {
    hide CompareUnits, Utf16;
    forall a, b ensures (KeyLeq(a, b) || KeyLeq(b, a)) && (CompareKeys(a, b) == 0 <==> a == b) && (KeyLeq(a, b) && KeyLeq(b, a) ==> a == b) {
      CompareFlips(Utf16(a), Utf16(b));
      CompareZero(Utf16(a), Utf16(b));
      if CompareKeys(a, b) == 0 { Utf16Injective(a, b); }
    }
    forall a, b, c | KeyLeq(a, b) && KeyLeq(b, c) ensures KeyLeq(a, c) {
      CompareTrans(Utf16(a), Utf16(b), Utf16(c));
    }
  }

  /** The one sequence is a prefix of the other, or has the smaller unit where they first differ. */
  ghost predicate Ascends(u: seq<nat>, v: seq<nat>) {
    || (|u| <= |v| && forall i :: 0 <= i < |u| ==> u[i] == v[i])
    || (exists k :: 0 <= k < |u| && k < |v| && u[k] < v[k] && forall i :: 0 <= i < k ==> u[i] == v[i])
  }

  lemma {:induction false} CompareAscends(u: seq<nat>, v: seq<nat>)
    ensures CompareUnits(u, v) <= 0 <==> Ascends(u, v)
    decreases |u|
  {
    if u != [] && v != [] && u[0] == v[0] {
      CompareAscends(u[1..], v[1..]);
      AscendsTail(u, v);
    } else if u != [] && v != [] && u[0] < v[0] {
      assert 0 <= 0 < |u| && u[0] < v[0];
    }
  }

  lemma AscendsTail(u: seq<nat>, v: seq<nat>)
    requires u != [] && v != [] && u[0] == v[0]
    ensures Ascends(u, v) <==> Ascends(u[1..], v[1..])
  {
    var p, q := u[1..], v[1..];
    assert forall i :: 0 < i < |u| ==> u[i] == p[i - 1];
    assert forall i :: 0 < i < |v| ==> v[i] == q[i - 1];
    if k :| 0 <= k < |u| && k < |v| && u[k] < v[k] && forall i :: 0 <= i < k ==> u[i] == v[i] {
      assert p[k - 1] < q[k - 1];
      forall i | 0 <= i < k - 1 ensures p[i] == q[i] { assert u[i + 1] == v[i + 1]; }
    }
    if k :| 0 <= k < |p| && k < |q| && p[k] < q[k] && forall i :: 0 <= i < k ==> p[i] == q[i] {
      assert u[k + 1] < v[k + 1];
      forall i | 0 <= i < k + 1 ensures u[i] == v[i] { if i > 0 { assert p[i - 1] == q[i - 1]; } }
    }
    if |u| <= |v| && forall i :: 0 <= i < |u| ==> u[i] == v[i] {
      forall i | 0 <= i < |p| ensures p[i] == q[i] { assert u[i + 1] == v[i + 1]; }
    }
    if |p| <= |q| && forall i :: 0 <= i < |p| ==> p[i] == q[i] {
      forall i | 0 <= i < |u| ensures u[i] == v[i] { if i > 0 { assert p[i - 1] == q[i - 1]; } }
    }
  }

  /** The order members are written in: ascending by code units. */
  lemma KeyLeqExact(a: string, b: string)
    ensures KeyLeq(a, b) <==> Ascends(Utf16(a), Utf16(b))
  {
    CompareAscends(Utf16(a), Utf16(b));
  }

  // ---------------------------------------------------------------- strings

  function HexDigit(n: nat): char
    requires n < 16
  {
    "0123456789abcdef"[n]
  }

  function Escape(c: char): string {
    if c == '\"' || c == '\\' then ['\\', c]
    else if c as int == 8 then "\\b"
    else if c == '\t' then "\\t"
    else if c == '\n' then "\\n"
    else if c as int == 12 then "\\f"
    else if c == '\r' then "\\r"
    else if c as int < 0x20 then "\\u00" + [HexDigit(c as int / 16), HexDigit(c as int % 16)]
    else [c]
  }

  function Escaped(s: string): string { if s == "" then "" else Escape(s[0]) + Escaped(s[1..]) }

  function Quote(s: string): string { "\"" + Escaped(s) + "\"" }

  function HexValue(c: char): Option<nat> {
    if '0' <= c <= '9' then Some(c as int - '0' as int)
    else if 'a' <= c <= 'f' then Some(c as int - 'a' as int + 10)
    else if 'A' <= c <= 'F' then Some(c as int - 'A' as int + 10)
    else None
  }

  /** The value of a four-digit escape, when it is one. */
  function Hex4(t: string): Option<char> {
    if |t| < 4 || HexValue(t[0]).None? || HexValue(t[1]).None? || HexValue(t[2]).None? || HexValue(t[3]).None? then None else
    var n := HexValue(t[0]).value * 4096 + HexValue(t[1]).value * 256 + HexValue(t[2]).value * 16 + HexValue(t[3]).value;
    if n < 0xD800 || 0xE000 <= n then Some(n as char) else None
  }

  datatype Read = Read(value: string, rest: string) | Bad

  /** One escape sequence after its backslash. */
  function ReadEscape(t: string): (r: Read)
    ensures r.Read? ==> |r.rest| < |t|
  {
    if t == "" then Bad
    else if t[0] == '\"' || t[0] == '\\' || t[0] == '/' then Read([t[0]], t[1..])
    else if t[0] == 'b' then Read([8 as char], t[1..])
    else if t[0] == 't' then Read("\t", t[1..])
    else if t[0] == 'n' then Read("\n", t[1..])
    else if t[0] == 'f' then Read([12 as char], t[1..])
    else if t[0] == 'r' then Read("\r", t[1..])
    else if t[0] == 'u' && Hex4(t[1..]).Some? then Read([Hex4(t[1..]).value], t[5..])
    else Bad
  }

  /** One character: an escape, or a plain character that needs none. */
  function ReadOne(t: string): (r: Read)
    requires t != ""
    ensures r.Read? ==> |r.rest| < |t|
  {
    if t[0] == '\\' then ReadEscape(t[1..])
    else if t[0] == '\"' || t[0] as int < 0x20 then Bad
    else Read([t[0]], t[1..])
  }

  /** A reader of the characters of a JSON string up to its closing quote, by the grammar and not by the writer. */
  function ReadChars(t: string): (r: Read)
    ensures r.Read? ==> |r.rest| < |t|
    decreases |t|
  {
    if t == "" then Bad
    else if t[0] == '\"' then Read("", t[1..])
    else if ReadOne(t).Bad? then Bad
    else
      var tail := ReadChars(ReadOne(t).rest);
      if tail.Bad? then Bad else Read(ReadOne(t).value + tail.value, tail.rest)
  }

  lemma EscapeReads(c: char, u: string)
    ensures Escape(c) != "" && Escape(c)[0] != '\"' && ReadOne(Escape(c) + u) == Read([c], u)
  {
    var t := Escape(c) + u;
    if c as int < 0x20 && Escape(c)[1] == 'u' {
      HexReads(c as int / 16);
      HexReads(c as int % 16);
      var d := t[1..];
      assert d[0] == 'u' && d[1] == '0' && d[2] == '0';
      assert d[3] == HexDigit(c as int / 16) && d[4] == HexDigit(c as int % 16);
      assert Hex4(d[1..]) == Some(c);
      assert d[5..] == u;
    } else if |Escape(c)| == 2 {
      assert t[1..][1..] == u;
    } else {
      assert t[1..] == u;
    }
  }

  lemma HexReads(n: nat)
    requires n < 16
    ensures HexValue(HexDigit(n)) == Some(n)
  {}

  /** Escaping is reversible: reading a written string gives it back, and leaves what follows it. */
  lemma {:induction false} StringRoundTrip(s: string, u: string)
    ensures ReadChars(Escaped(s) + "\"" + u) == Read(s, u)
    decreases |s|
  {
    hide Escape, ReadOne;
    if s == "" {
      assert Escaped(s) + "\"" + u == "\"" + u;
    } else {
      var tail := Escaped(s[1..]) + "\"" + u;
      StringRoundTrip(s[1..], u);
      EscapeReads(s[0], tail);
      assert Escaped(s) + "\"" + u == Escape(s[0]) + tail;
      assert [s[0]] + s[1..] == s;
    }
  }

  /** Written strings are told apart whatever follows them. */
  lemma QuoteInjective(a: string, b: string, u: string, v: string)
    requires Quote(a) + u == Quote(b) + v
    ensures a == b && u == v
  {
    hide Escaped, ReadChars;
    StringRoundTrip(a, u);
    StringRoundTrip(b, v);
    assert (Quote(a) + u)[1..] == Escaped(a) + "\"" + u;
    assert (Quote(b) + v)[1..] == Escaped(b) + "\"" + v;
  }

  /** Escapes are minimal: nothing shorter reads as the character, and nothing else as short unless it has hexadecimal digits. */
  lemma EscapeMinimal(c: char, t: string)
    requires t != "" && ReadOne(t) == Read([c], "")
    ensures |Escape(c)| < |t| || (|Escape(c)| == |t| && (|t| < 6 ==> Escape(c) == t))
  {
    hide Escape;
    if t[0] == '\\' {
      EscapeNoLonger(c);
      if |t| < 6 { ShortEscapes(c, t[1..]); assert t == ['\\', t[1]]; }
    } else {
      PlainChars(c);
      assert t == [c];
    }
  }

  lemma PlainChars(c: char)
    requires c != '\"' && c != '\\' && 0x20 <= c as int
    ensures Escape(c) == [c]
  {}

  /** Hexadecimal digits are lower case. */
  lemma EscapeNoLonger(c: char)
    ensures |Escape(c)| in {1, 2, 6} && (|Escape(c)| == 6 ==> forall i :: 0 <= i < 6 ==> !('A' <= Escape(c)[i] <= 'F'))
  {
    if c as int < 0x20 { HexSmall(c as int); }
  }

  lemma HexSmall(n: nat)
    requires n < 0x20
    ensures !('A' <= HexDigit(n / 16) <= 'F') && !('A' <= HexDigit(n % 16) <= 'F')
  {}

  lemma ShortEscapes(c: char, d: string)
    requires |d| < 5 && ReadEscape(d) == Read([c], "")
    ensures |d| == 1 && (Escape(c) == ['\\', d[0]] || |Escape(c)| == 1)
  {
    hide Hex4;
    Hex4Needs(d[1..]);
    assert |d[1..]| == |d| - 1;
    assert [c][0] == c;
  }

  lemma Hex4Needs(t: string)
    ensures Hex4(t).Some? ==> |t| >= 4
  {}
}
