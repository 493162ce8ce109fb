// Strings as UTF-16 code units: their order, JSON quoting,
// and why a quoted string ends where it does.
module CanonicalText {
  import opened Collections
  import opened Sorting
  import opened Keys

  type Unit = x: int | 0 <= x < 0x1_0000

  type Text = seq<Unit>

  const QUOTE: Unit := 34
  const BACKSLASH: Unit := 92
  const LETTER_U: Unit := 117
  const COMMA: Unit := 44
  const COLON: Unit := 58
  const OPEN_LIST: Unit := 91
  const CLOSE_LIST: Unit := 93
  const OPEN_OBJECT: Unit := 123
  const CLOSE_OBJECT: Unit := 125

  function CharUnit(c: char): Unit {
    if c as int < 128 then c as int else 63
  }

  /** Only ever applied to ASCII text; any other character would become a question mark. */
  function Ascii(s: string): Text {
    Map(CharUnit, s)
  }

  // ---- order by code unit

  predicate UnitsLess(a: Text, b: Text) {
    if b == [] then false
    else if a == [] then true
    else if a[0] != b[0] then a[0] < b[0]
    else UnitsLess(a[1..], b[1..])
  }

  lemma {:induction false} UnitsConnex(a: Text, b: Text)
    ensures !UnitsLess(a, b) || !UnitsLess(b, a)
    ensures !UnitsLess(a, b) && !UnitsLess(b, a) ==> a == b
  {
    if a != [] && b != [] {
      UnitsConnex(a[1..], b[1..]);
      assert a == [a[0]] + a[1..] && b == [b[0]] + b[1..];
    }
  }

  lemma {:induction false} UnitsTransitive(a: Text, b: Text, c: Text)
    requires !UnitsLess(b, a) && !UnitsLess(c, b)
    ensures !UnitsLess(c, a)
  {
    if a != [] && b != [] && c != [] && a[0] == b[0] == c[0] {
      UnitsTransitive(a[1..], b[1..], c[1..]);
    }
  }

  // ---- escaping, as JSON.stringify does it

  function HexDigit(n: int): Unit
    requires 0 <= n < 16
  {
    if n < 10 then 48 + n else 87 + n
  }

  function Hex4(c: Unit): Text {
    [HexDigit(c / 4096), HexDigit(c / 256 % 16), HexDigit(c / 16 % 16), HexDigit(c % 16)]
  }

  lemma Hex4Injective(c: Unit, d: Unit)
    requires Hex4(c) == Hex4(d)
    ensures c == d
  {
    assert Hex4(c)[0] == Hex4(d)[0] && Hex4(c)[1] == Hex4(d)[1] && Hex4(c)[2] == Hex4(d)[2] && Hex4(c)[3] == Hex4(d)[3];
    assert c / 4096 == d / 4096 && c / 256 % 16 == d / 256 % 16 && c / 16 % 16 == d / 16 % 16 && c % 16 == d % 16;
    Nibbles(c);
    Nibbles(d);
  }

  lemma Nibbles(c: Unit)
    ensures c == (c / 4096) * 4096 + (c / 256 % 16) * 256 + (c / 16 % 16) * 16 + c % 16
  {
    var b := c / 16;
    var a := b / 16;
    assert c == b * 16 + c % 16 && b == a * 16 + b % 16 && a == (a / 16) * 16 + a % 16;
    assert a == c / 256 && a / 16 == c / 4096;
  }

  predicate IsLead(c: Unit) {
    0xD800 <= c < 0xDC00
  }

  predicate IsTrail(c: Unit) {
    0xDC00 <= c < 0xE000
  }

  /** The letter of a two-unit escape, if the unit has one. */
  function ShortEscape(c: Unit): Option<Unit> {
    if c == 8 then Some(98)
    else if c == 9 then Some(116)
    else if c == 10 then Some(110)
    else if c == 12 then Some(102)
    else if c == 13 then Some(114)
    else if c == QUOTE then Some(QUOTE)
    else if c == BACKSLASH then Some(BACKSLASH)
    else None
  }

  function EscapeUnit(c: Unit): Text {
    if ShortEscape(c).Some? then [BACKSLASH, ShortEscape(c).value]
    else if c < 32 || IsLead(c) || IsTrail(c) then [BACKSLASH, LETTER_U] + Hex4(c)
    else [c]
  }

  predicate StartsPair(s: Text) {
    |s| >= 2 && IsLead(s[0]) && IsTrail(s[1])
  }

  /** A surrogate pair stands for itself; a lone surrogate is escaped. */
  function Escape(s: Text): Text {
    if s == [] then []
    else if StartsPair(s) then s[..2] + Escape(s[2..])
    else EscapeUnit(s[0]) + Escape(s[1..])
  }

  function Quote(s: Text): Text {
    [QUOTE] + Escape(s) + [QUOTE]
  }

  // ---- a quoted string determines its content and its end

  lemma UnitFree(c: Unit, d: Unit, x: Text, y: Text)
    requires EscapeUnit(c) + x == EscapeUnit(d) + y
    ensures c == d && x == y
  {
    var p, q := EscapeUnit(c), EscapeUnit(d);
    assert (p + x)[0] == p[0] && (q + y)[0] == q[0];
    if |p| > 1 {
      assert p[0] == q[0] == BACKSLASH && |q| > 1;
      assert (p + x)[1] == p[1] && (q + y)[1] == q[1];
      assert |p| == |q|;
      assert (p + x)[..|p|] == p && (q + y)[..|q|] == q;
      if |p| == 6 {
        assert p[2..] == Hex4(c) && q[2..] == Hex4(d);
        Hex4Injective(c, d);
      }
    }
    assert p == q;
    assert (p + x)[|p|..] == x && (q + y)[|q|..] == y;
  }

  lemma FirstOfUnit(c: Unit)
    ensures EscapeUnit(c) != [] && EscapeUnit(c)[0] != QUOTE && !IsLead(EscapeUnit(c)[0])
  {
  }

  lemma EscapePair(s: Text, x: Text)
    requires StartsPair(s)
    ensures Escape(s) + [QUOTE] + x == s[..2] + (Escape(s[2..]) + [QUOTE] + x)
  {
  }

  lemma EscapeSingle(s: Text, x: Text)
    requires s != [] && !StartsPair(s)
    ensures Escape(s) + [QUOTE] + x == EscapeUnit(s[0]) + (Escape(s[1..]) + [QUOTE] + x)
  {
  }

  /** The first unit tells the end of the string, a surrogate pair and a single unit apart. */
  lemma EscapeHead(s: Text, x: Text)
    ensures var t := Escape(s) + [QUOTE] + x;
            && t != []
            && (t[0] == QUOTE <==> s == [])
            && (s != [] ==> (IsLead(t[0]) <==> StartsPair(s)))
            && (s == [] ==> t == [QUOTE] + x)
            && (StartsPair(s) ==> t == s[..2] + (Escape(s[2..]) + [QUOTE] + x))
            && (s != [] && !StartsPair(s) ==> t == EscapeUnit(s[0]) + (Escape(s[1..]) + [QUOTE] + x))
  {
    if s != [] {
      FirstOfUnit(s[0]);
      if StartsPair(s) {
        EscapePair(s, x);
      } else {
        EscapeSingle(s, x);
      }
    }
  }

  lemma {:induction false} EscapeFree(a: Text, b: Text, x: Text, y: Text)
    requires Escape(a) + [QUOTE] + x == Escape(b) + [QUOTE] + y
    ensures a == b && x == y
    decreases |a|
  {
    EscapeHead(a, x);
    EscapeHead(b, y);
    if a == [] {
      assert ([QUOTE] + x)[1..] == x && ([QUOTE] + y)[1..] == y;
    } else if StartsPair(a) {
      var p, q := Escape(a[2..]) + [QUOTE] + x, Escape(b[2..]) + [QUOTE] + y;
      assert (a[..2] + p)[..2] == a[..2] && (b[..2] + q)[..2] == b[..2];
      assert (a[..2] + p)[2..] == p && (b[..2] + q)[2..] == q;
      EscapeFree(a[2..], b[2..], x, y);
      assert a == a[..2] + a[2..] && b == b[..2] + b[2..];
    } else {
      UnitFree(a[0], b[0], Escape(a[1..]) + [QUOTE] + x, Escape(b[1..]) + [QUOTE] + y);
      EscapeFree(a[1..], b[1..], x, y);
      assert a == [a[0]] + a[1..] && b == [b[0]] + b[1..];
    }
  }

  /** Quoting is injective and prefix-free. */
  lemma QuoteFree(a: Text, b: Text, x: Text, y: Text)
    requires Quote(a) + x == Quote(b) + y
    ensures a == b && x == y
  {
    var p, q := Escape(a) + [QUOTE] + x, Escape(b) + [QUOTE] + y;
    assert Quote(a) + x == [QUOTE] + p && Quote(b) + y == [QUOTE] + q;
    assert ([QUOTE] + p)[1..] == p && ([QUOTE] + q)[1..] == q;
    EscapeFree(a, b, x, y);
  }

  /** Decimal text of an integer. */
  function DecimalText(n: int): Text {
    Ascii(Decimal(n))
  }
}
