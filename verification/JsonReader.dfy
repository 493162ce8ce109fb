// A reader of JSON text, for the part of the grammar of RFC 8259 that canonical texts use:
// literals, strings, arrays and objects, with no blanks and no numbers.
module JsonReader {
  import opened Collections
  import opened CanonicalText
  import opened CanonicalJson

  /** What was read, and the text after it. */
  datatype Got<+T> = Got(value: T, rest: Text)

  // ---- strings

  function HexValue(u: Unit): (r: Option<int>)
    ensures r.Some? ==> 0 <= r.value < 16
  {
    if 48 <= u <= 57 then Some(u - 48)
    else if 97 <= u <= 102 then Some(u - 87)
    else if 65 <= u <= 70 then Some(u - 55)
    else None
  }

  function ReadHex(t: Text): Option<Got<Unit>> {
    if |t| < 4 then None
    else
      match (HexValue(t[0]), HexValue(t[1]), HexValue(t[2]), HexValue(t[3]))
      case (Some(a), Some(b), Some(c), Some(d)) => Some(Got(a * 4096 + b * 256 + c * 16 + d, t[4..]))
      case _ => None
  }

  function ShortUnescape(u: Unit): Option<Unit> {
    if u == 98 then Some(8)
    else if u == 116 then Some(9)
    else if u == 110 then Some(10)
    else if u == 102 then Some(12)
    else if u == 114 then Some(13)
    else if u == QUOTE || u == BACKSLASH || u == 47 then Some(u)
    else None
  }

  /** One unit of a string, escaped or not. */
  function ReadUnit(t: Text): (r: Option<Got<Unit>>)
    ensures r.Some? ==> |r.value.rest| < |t|
  {
    if t == [] || t[0] < 32 || t[0] == QUOTE then None
    else if t[0] != BACKSLASH then Some(Got(t[0], t[1..]))
    else if |t| < 2 then None
    else if t[1] == LETTER_U then ReadHex(t[2..])
    else
      match ShortUnescape(t[1])
      case None => None
      case Some(u) => Some(Got(u, t[2..]))
  }

  /** A string, from after its opening quote. */
  function ReadString(t: Text): (r: Option<Got<Text>>)
    ensures r.Some? ==> |r.value.rest| < |t|
    decreases |t|
  {
    if t != [] && t[0] == QUOTE then Some(Got([], t[1..]))
    else
      match ReadUnit(t)
      case None => None
      case Some(Got(u, more)) =>
        match ReadString(more)
        case None => None
        case Some(Got(s, rest)) => Some(Got([u] + s, rest))
  }

  // ---- documents

  function ReadDoc(t: Text): (r: Option<Got<Doc>>)
    ensures r.Some? ==> |r.value.rest| < |t|
    decreases |t|, 0
  {
    if NULL_TEXT <= t then Some(Got(DNull, t[4..]))
    else if TRUE_TEXT <= t then Some(Got(DBool(true), t[4..]))
    else if FALSE_TEXT <= t then Some(Got(DBool(false), t[5..]))
    else if t == [] then None
    else if t[0] == QUOTE then
      match ReadString(t[1..])
      case None => None
      case Some(Got(s, rest)) => Some(Got(DText(s), rest))
    else if t[0] == OPEN_LIST then
      match ReadItems(t[1..])
      case None => None
      case Some(Got(ds, rest)) => Some(Got(DList(ds), rest))
    else if t[0] == OPEN_OBJECT then
      match ReadFields(t[1..])
      case None => None
      case Some(Got(fs, rest)) => Some(Got(DObject(fs), rest))
    else None
  }

  predicate StartsWith(t: Text, u: Unit) {
    t != [] && t[0] == u
  }

  /** The items of an array, from after its opening bracket or a comma. */
  function ReadItems(t: Text): (r: Option<Got<seq<Doc>>>)
    ensures r.Some? ==> |r.value.rest| < |t|
    decreases |t|, 2
  {
    if StartsWith(t, CLOSE_LIST) then Some(Got([], t[1..])) else ReadSomeItems(t)
  }

  function ReadSomeItems(t: Text): (r: Option<Got<seq<Doc>>>)
    ensures r.Some? ==> |r.value.rest| < |t|
    decreases |t|, 1
  {
    match ReadDoc(t)
    case None => None
    case Some(Got(d, more)) =>
      if StartsWith(more, CLOSE_LIST) then Some(Got([d], more[1..]))
      else if !StartsWith(more, COMMA) then None
      else
        match ReadSomeItems(more[1..])
        case None => None
        case Some(Got(ds, rest)) => Some(Got([d] + ds, rest))
  }

  /** The fields of an object, from after its opening brace or a comma. */
  function ReadFields(t: Text): (r: Option<Got<seq<Entry<Doc>>>>)
    ensures r.Some? ==> |r.value.rest| < |t|
    decreases |t|, 3
  {
    if StartsWith(t, CLOSE_OBJECT) then Some(Got([], t[1..])) else ReadSomeFields(t)
  }

  function ReadField(t: Text): (r: Option<Got<Entry<Doc>>>)
    ensures r.Some? ==> |r.value.rest| < |t|
    decreases |t|, 1
  {
    if !StartsWith(t, QUOTE) then None
    else
      match ReadString(t[1..])
      case None => None
      case Some(Got(key, more)) =>
        if !StartsWith(more, COLON) then None
        else
          match ReadDoc(more[1..])
          case None => None
          case Some(Got(d, rest)) => Some(Got(Entry(key, d), rest))
  }

  function ReadSomeFields(t: Text): (r: Option<Got<seq<Entry<Doc>>>>)
    ensures r.Some? ==> |r.value.rest| < |t|
    decreases |t|, 2
  {
    match ReadField(t)
    case None => None
    case Some(Got(f, more)) =>
      if StartsWith(more, CLOSE_OBJECT) then Some(Got([f], more[1..]))
      else if !StartsWith(more, COMMA) then None
      else
        match ReadSomeFields(more[1..])
        case None => None
        case Some(Got(fs, rest)) => Some(Got([f] + fs, rest))
  }

  /** A whole text is one document and nothing after it. */
  function ReadText(t: Text): Option<Doc> {
    match ReadDoc(t)
    case None => None
    case Some(Got(d, rest)) => if rest == [] then Some(d) else None
  }

  // ---- reading undoes quoting

  lemma HexReads(c: Unit, y: Text)
    ensures ReadHex(Hex4(c) + y) == Some(Got(c, y))
  {
    var t := Hex4(c) + y;
    assert t[0] == HexDigit(c / 4096) && t[1] == HexDigit(c / 256 % 16) && t[2] == HexDigit(c / 16 % 16) && t[3] == HexDigit(c % 16);
    assert t[4..] == y;
    Nibbles(c);
  }

  lemma UnitReads(c: Unit, y: Text)
    ensures ReadUnit(EscapeUnit(c) + y) == Some(Got(c, y))
  {
    var t := EscapeUnit(c) + y;
    if ShortEscape(c).Some? {
      assert t[0] == BACKSLASH && t[1] == ShortEscape(c).value && t[2..] == y;
    } else if |EscapeUnit(c)| > 1 {
      assert t[0] == BACKSLASH && t[1] == LETTER_U && t[2..] == Hex4(c) + y;
      HexReads(c, y);
    } else {
      assert t[0] == c && t[1..] == y;
    }
  }

  lemma ReadOne(t: Text, u: Unit, more: Text, s: Text, rest: Text)
    requires ReadUnit(t) == Some(Got(u, more)) && ReadString(more) == Some(Got(s, rest))
    ensures ReadString(t) == Some(Got([u] + s, rest))
  {
  }

  lemma PlainUnitReads(u: Unit, y: Text)
    requires u >= 0x80
    ensures ReadUnit([u] + y) == Some(Got(u, y))
  {
    assert ([u] + y)[1..] == y;
  }

  lemma PairReads(s: Text, tail: Text, x: Text)
    requires StartsPair(s) && ReadString(tail) == Some(Got(s[2..], x))
    ensures ReadString(s[..2] + tail) == Some(Got(s, x))
  {
    PairSplits(s, tail);
    PlainUnitReads(s[1], tail);
    ReadOne([s[1]] + tail, s[1], tail, s[2..], x);
    PlainUnitReads(s[0], [s[1]] + tail);
    ReadOne([s[0]] + ([s[1]] + tail), s[0], [s[1]] + tail, [s[1]] + s[2..], x);
  }

  lemma PairSplits(s: Text, tail: Text)
    requires |s| >= 2
    ensures s[..2] + tail == [s[0]] + ([s[1]] + tail) && s == [s[0]] + ([s[1]] + s[2..])
  {
  }

  lemma {:induction false} EscapedReads(s: Text, x: Text)
    ensures ReadString(Escape(s) + [QUOTE] + x) == Some(Got(s, x))
    decreases |s|
  {
    EscapeHead(s, x);
    var t := Escape(s) + [QUOTE] + x;
    if s == [] {
      assert t[1..] == x;
    } else if StartsPair(s) {
      var tail := Escape(s[2..]) + [QUOTE] + x;
      EscapedReads(s[2..], x);
      PairReads(s, tail, x);
    } else {
      EscapedReads(s[1..], x);
      SingleReads(s, Escape(s[1..]) + [QUOTE] + x, x);
    }
  }

  lemma SingleReads(s: Text, tail: Text, x: Text)
    requires s != [] && ReadString(tail) == Some(Got(s[1..], x))
    ensures ReadString(EscapeUnit(s[0]) + tail) == Some(Got(s, x))
  {
    UnitReads(s[0], tail);
    ReadOne(EscapeUnit(s[0]) + tail, s[0], tail, s[1..], x);
    assert s == [s[0]] + s[1..];
  }

  /** Whatever follows a quoted string, the string is read and the rest is left. */
  lemma QuotedReads(s: Text, x: Text)
    ensures var t := Quote(s) + x; t[0] == QUOTE && ReadString(t[1..]) == Some(Got(s, x))
  {
    assert (Quote(s) + x)[1..] == Escape(s) + [QUOTE] + x;
    EscapedReads(s, x);
  }

  // ---- reading undoes rendering

  lemma Literals()
    ensures |NULL_TEXT| == 4 && |TRUE_TEXT| == 4 && |FALSE_TEXT| == 5
    ensures NULL_TEXT[0] == 110 && TRUE_TEXT[0] == 116 && FALSE_TEXT[0] == 102
  {
    assert NULL_TEXT[0] == CharUnit('n') && TRUE_TEXT[0] == CharUnit('t') && FALSE_TEXT[0] == CharUnit('f');
  }

  lemma NotLiteral(t: Text)
    requires t != [] && t[0] != 110 && t[0] != 116 && t[0] != 102
    ensures !(NULL_TEXT <= t) && !(TRUE_TEXT <= t) && !(FALSE_TEXT <= t)
  {
    Literals();
  }

  lemma LiteralReads(d: Doc, x: Text)
    requires d.DNull? || d.DBool?
    ensures ReadDoc(Render(d) + x) == Some(Got(d, x))
  {
    Literals();
    var t := Render(d) + x;
    assert t[0] == Render(d)[0] && t[..|Render(d)|] == Render(d) && t[|Render(d)|..] == x;
  }

  lemma ItemsStep(t: Text, d: Doc, more: Text, ds: seq<Doc>, x: Text)
    requires ReadDoc(t) == Some(Got(d, more)) && StartsWith(more, COMMA) && ReadSomeItems(more[1..]) == Some(Got(ds, x))
    ensures ReadSomeItems(t) == Some(Got([d] + ds, x))
  {
  }

  lemma ItemsEnd(t: Text, d: Doc, more: Text)
    requires ReadDoc(t) == Some(Got(d, more)) && StartsWith(more, CLOSE_LIST)
    ensures ReadSomeItems(t) == Some(Got([d], more[1..]))
  {
  }

  lemma FirstItemReads(ds: seq<Doc>, x: Text)
    requires ds != []
    requires var more := Follow(RenderAll(ds)[1..], CLOSE_LIST, x); ReadDoc(Render(ds[0]) + more) == Some(Got(ds[0], more))
    ensures var ps := RenderAll(ds); ReadDoc(Join(ps) + [CLOSE_LIST] + x) == Some(Got(ds[0], Follow(ps[1..], CLOSE_LIST, x)))
  {
    JoinHead(RenderAll(ds), CLOSE_LIST, x);
  }

  lemma LastItem(ds: seq<Doc>, x: Text)
    requires |ds| == 1
    ensures var more := Follow(RenderAll(ds)[1..], CLOSE_LIST, x); StartsWith(more, CLOSE_LIST) && more[1..] == x
  {
  }

  lemma ItemsAfter(ds: seq<Doc>, x: Text)
    requires |ds| > 1
    ensures var more := Follow(RenderAll(ds)[1..], CLOSE_LIST, x);
            StartsWith(more, COMMA) && more[1..] == Join(RenderAll(ds[1..])) + [CLOSE_LIST] + x
  {
    assert RenderAll(ds)[1..] == RenderAll(ds[1..]);
  }

  lemma {:induction false} SomeItemsRead(ds: seq<Doc>, x: Text)
    requires ds != []
    ensures ReadSomeItems(Join(RenderAll(ds)) + [CLOSE_LIST] + x) == Some(Got(ds, x))
    decreases ds, 1
  {
    var ps := RenderAll(ds);
    var t, more := Join(ps) + [CLOSE_LIST] + x, Follow(ps[1..], CLOSE_LIST, x);
    RenderedReads(ds[0], more);
    FirstItemReads(ds, x);
    assert ds == [ds[0]] + ds[1..];
    if |ds| == 1 {
      LastItem(ds, x);
      assert ds == [ds[0]];
      ItemsEnd(t, ds[0], more);
    } else {
      SomeItemsRead(ds[1..], x);
      ItemsAfter(ds, x);
      ItemsStep(t, ds[0], more, ds[1..], x);
    }
  }

  lemma FieldFrom(t: Text, key: Text, more: Text, d: Doc, x: Text)
    requires StartsWith(t, QUOTE) && ReadString(t[1..]) == Some(Got(key, more))
    requires StartsWith(more, COLON) && ReadDoc(more[1..]) == Some(Got(d, x))
    ensures ReadField(t) == Some(Got(Entry(key, d), x))
  {
  }

  lemma FieldReads(key: Text, d: Doc, x: Text)
    requires ReadDoc(Render(d) + x) == Some(Got(d, x))
    ensures ReadField(FieldText(Entry(key, Render(d))) + x) == Some(Got(Entry(key, d), x))
  {
    var more := [COLON] + (Render(d) + x);
    FieldShape(key, Render(d), x);
    QuotedReads(key, more);
    assert more[1..] == Render(d) + x;
    FieldFrom(Quote(key) + more, key, more, d, x);
  }

  lemma FieldsStep(t: Text, f: Entry<Doc>, more: Text, fs: seq<Entry<Doc>>, x: Text)
    requires ReadField(t) == Some(Got(f, more)) && StartsWith(more, COMMA) && ReadSomeFields(more[1..]) == Some(Got(fs, x))
    ensures ReadSomeFields(t) == Some(Got([f] + fs, x))
  {
  }

  lemma FieldsEnd(t: Text, f: Entry<Doc>, more: Text)
    requires ReadField(t) == Some(Got(f, more)) && StartsWith(more, CLOSE_OBJECT)
    ensures ReadSomeFields(t) == Some(Got([f], more[1..]))
  {
  }

  lemma FirstFieldReads(fs: seq<Entry<Doc>>, x: Text)
    requires fs != []
    requires var more := Follow(FieldTexts(RenderFields(fs))[1..], CLOSE_OBJECT, x); ReadDoc(Render(fs[0].value) + more) == Some(Got(fs[0].value, more))
    ensures var ps := FieldTexts(RenderFields(fs)); ReadField(Join(ps) + [CLOSE_OBJECT] + x) == Some(Got(fs[0], Follow(ps[1..], CLOSE_OBJECT, x)))
  {
    var ps := FieldTexts(RenderFields(fs));
    JoinHead(ps, CLOSE_OBJECT, x);
    FieldReads(fs[0].key, fs[0].value, Follow(ps[1..], CLOSE_OBJECT, x));
  }

  lemma LastField(fs: seq<Entry<Doc>>, x: Text)
    requires |fs| == 1
    ensures var more := Follow(FieldTexts(RenderFields(fs))[1..], CLOSE_OBJECT, x); StartsWith(more, CLOSE_OBJECT) && more[1..] == x
  {
  }

  lemma FieldsAfter(fs: seq<Entry<Doc>>, x: Text)
    requires |fs| > 1
    ensures var more := Follow(FieldTexts(RenderFields(fs))[1..], CLOSE_OBJECT, x);
            StartsWith(more, COMMA) && more[1..] == Join(FieldTexts(RenderFields(fs[1..]))) + [CLOSE_OBJECT] + x
  {
    var ps := FieldTexts(RenderFields(fs));
    assert RenderFields(fs)[1..] == RenderFields(fs[1..]);
    assert ps[1..] == FieldTexts(RenderFields(fs[1..]));
  }

  lemma {:induction false} SomeFieldsRead(fs: seq<Entry<Doc>>, x: Text)
    requires fs != []
    ensures ReadSomeFields(Join(FieldTexts(RenderFields(fs))) + [CLOSE_OBJECT] + x) == Some(Got(fs, x))
    decreases fs, 1
  {
    var ps := FieldTexts(RenderFields(fs));
    var t, more := Join(ps) + [CLOSE_OBJECT] + x, Follow(ps[1..], CLOSE_OBJECT, x);
    RenderedReads(fs[0].value, more);
    FirstFieldReads(fs, x);
    assert fs == [fs[0]] + fs[1..];
    if |fs| == 1 {
      LastField(fs, x);
      assert fs == [fs[0]];
      FieldsEnd(t, fs[0], more);
    } else {
      SomeFieldsRead(fs[1..], x);
      FieldsAfter(fs, x);
      FieldsStep(t, fs[0], more, fs[1..], x);
    }
  }

  lemma TextReads(s: Text, x: Text)
    ensures ReadDoc(Render(DText(s)) + x) == Some(Got(DText(s), x))
  {
    QuotedReads(s, x);
    NotLiteral(Quote(s) + x);
  }

  lemma Inside(open: Unit, body: Text, close: Unit, x: Text)
    ensures var t := [open] + body + [close] + x; t[0] == open && t[1..] == body + [close] + x
  {
  }

  lemma ListReads(ds: seq<Doc>, x: Text)
    requires ds != [] ==> ReadSomeItems(Join(RenderAll(ds)) + [CLOSE_LIST] + x) == Some(Got(ds, x))
    ensures ReadDoc(Render(DList(ds)) + x) == Some(Got(DList(ds), x))
  {
    var body := Join(RenderAll(ds));
    Inside(OPEN_LIST, body, CLOSE_LIST, x);
    NotLiteral([OPEN_LIST] + body + [CLOSE_LIST] + x);
    RenderedStarts(ds);
    JoinStart(RenderAll(ds), CLOSE_LIST, x);
    if ds == [] {
      assert (body + [CLOSE_LIST] + x)[1..] == x;
    }
  }

  lemma FieldsStart(fs: seq<Entry<Doc>>, x: Text)
    ensures StartsWith(Join(FieldTexts(RenderFields(fs))) + [CLOSE_OBJECT] + x, CLOSE_OBJECT) <==> fs == []
  {
    var ps := FieldTexts(RenderFields(fs));
    if fs != [] {
      assert ps[0][0] == QUOTE;
    }
    JoinStart(ps, CLOSE_OBJECT, x);
  }

  lemma ObjectFrom(t: Text, fs: seq<Entry<Doc>>, x: Text)
    requires StartsWith(t, OPEN_OBJECT) && ReadFields(t[1..]) == Some(Got(fs, x))
    ensures ReadDoc(t) == Some(Got(DObject(fs), x))
  {
    NotLiteral(t);
  }

  lemma FieldsRead(fs: seq<Entry<Doc>>, x: Text)
    requires fs != [] ==> ReadSomeFields(Join(FieldTexts(RenderFields(fs))) + [CLOSE_OBJECT] + x) == Some(Got(fs, x))
    ensures ReadFields(Join(FieldTexts(RenderFields(fs))) + [CLOSE_OBJECT] + x) == Some(Got(fs, x))
  {
    FieldsStart(fs, x);
    if fs == [] {
      assert (Join(FieldTexts(RenderFields(fs))) + [CLOSE_OBJECT] + x)[1..] == x;
    }
  }

  lemma ObjectReads(d: Doc, fs: seq<Entry<Doc>>, x: Text)
    requires d == DObject(fs)
    requires fs != [] ==> ReadSomeFields(Join(FieldTexts(RenderFields(fs))) + [CLOSE_OBJECT] + x) == Some(Got(fs, x))
    ensures ReadDoc(Render(d) + x) == Some(Got(d, x))
  {
    var body := Join(FieldTexts(RenderFields(fs)));
    FieldsRead(fs, x);
    Inside(OPEN_OBJECT, body, CLOSE_OBJECT, x);
    ObjectFrom([OPEN_OBJECT] + body + [CLOSE_OBJECT] + x, fs, x);
  }

  /** Whatever follows a rendered document, the document is read and the rest is left. */
  lemma {:induction false} RenderedReads(d: Doc, x: Text)
    ensures ReadDoc(Render(d) + x) == Some(Got(d, x))
    decreases d
  {
    match d
    case DText(s) => TextReads(s, x);
    case DList(ds) =>
      if ds != [] {
        SomeItemsRead(ds, x);
      }
      ListReads(ds, x);
    case DObject(fs) =>
      if fs != [] {
        SomeFieldsRead(fs, x);
      }
      ObjectReads(d, fs, x);
    case _ => LiteralReads(d, x);
  }

  /** Reading undoes rendering, for every document. */
  lemma ReadTextOfRender(d: Doc)
    ensures ReadText(Render(d)) == Some(d)
  {
    RenderedReads(d, []);
    assert Render(d) + [] == Render(d);
  }
}
