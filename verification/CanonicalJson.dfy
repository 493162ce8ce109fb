/** Canonical JSON: one text per document, whatever the order of its keys. */
module CanonicalJson {
  import opened Collections
  import opened Sorting
  import opened CanonicalText

  datatype Field = Field(key: Text, value: Json)

  /** What a program may hand over. `Other` is a function, a symbol or an object that is not plain. */
  datatype Json =
    | JNull
    | JBool(b: bool)
    | JString(s: Text)
    | JBigInt(n: int)
    | JNumber(whole: bool, i: int)
    | JUndefined
    | JOther
    | JArray(items: seq<Json>)
    | JObject(fields: seq<Field>)

  /** Unicode normalisation form C. */
  type Nfc = Text -> Text

  ghost predicate IsNormaliser(nfc: Nfc) {
    forall s :: nfc(nfc(s)) == nfc(s)
  }

  function Join(parts: seq<Text>): Text {
    if parts == [] then []
    else if |parts| == 1 then parts[0]
    else parts[0] + [COMMA] + Join(parts[1..])
  }

  datatype Entry<T> = Entry(key: Text, value: T)

  function ByKey<T(!new)>(): Order<Entry<T>> {
    (a: Entry<T>, b: Entry<T>) => !UnitsLess(b.key, a.key)
  }

  function KeysOf<T>(es: seq<Entry<T>>): seq<Text> {
    Map((e: Entry<T>) => e.key, es)
  }

  function FieldText(e: Entry<Text>): Text {
    Quote(e.key) + [COLON] + e.value
  }

  function FieldTexts(es: seq<Entry<Text>>): seq<Text> {
    Map((e: Entry<Text>) => FieldText(e), es)
  }

  function NormaliseKeys(nfc: Nfc, es: seq<Entry<Text>>): seq<Entry<Text>> {
    Map((e: Entry<Text>) => Entry(nfc(e.key), e.value), es)
  }

  function ObjectText(es: seq<Entry<Text>>): Text {
    [OPEN_OBJECT] + Join(FieldTexts(es)) + [CLOSE_OBJECT]
  }

  /** Two keys with one normal form are refused; otherwise the fields are written in key order. */
  function FinishObject(nfc: Nfc, entries: seq<Entry<Text>>): Option<Text> {
    if !Distinct(KeysOf(entries)) then None
    else Some(ObjectText(NormaliseKeys(nfc, Sort(ByKey(), entries))))
  }

  const NULL_TEXT := Ascii("null")
  const TRUE_TEXT := Ascii("true")
  const FALSE_TEXT := Ascii("false")

  /** No text for a value that has no canonical form. */
  function Canonicalise(nfc: Nfc, v: Json): Option<Text>
    decreases v
  {
    match v
    case JNull => Some(NULL_TEXT)
    case JBool(b) => Some(if b then TRUE_TEXT else FALSE_TEXT)
    case JString(s) => Some(Quote(nfc(s)))
    case JBigInt(n) => Some(Quote(DecimalText(n)))
    case JNumber(_, _) => None
    case JUndefined => None
    case JOther => None
    case JArray(items) => (
      match CanonicaliseAll(nfc, items)
      case None => None
      case Some(parts) => Some([OPEN_LIST] + Join(parts) + [CLOSE_LIST]))
    case JObject(fields) => (
      match CanonicaliseFields(nfc, fields)
      case None => None
      case Some(entries) => FinishObject(nfc, entries))
  }

  function CanonicaliseAll(nfc: Nfc, vs: seq<Json>): Option<seq<Text>>
    decreases vs
  {
    if vs == [] then Some([])
    else
      match (Canonicalise(nfc, vs[0]), CanonicaliseAll(nfc, vs[1..]))
      case (Some(t), Some(ts)) => Some([t] + ts)
      case _ => None
  }

  function CanonicaliseFields(nfc: Nfc, fs: seq<Field>): Option<seq<Entry<Text>>>
    decreases fs
  {
    if fs == [] then Some([])
    else
      match (Canonicalise(nfc, fs[0].value), CanonicaliseFields(nfc, fs[1..]))
      case (Some(t), Some(es)) => Some([Entry(nfc(fs[0].key), t)] + es)
      case _ => None
  }

  // ---- the document a value stands for

  datatype Doc =
    | DNull
    | DBool(b: bool)
    | DText(s: Text)
    | DList(items: seq<Doc>)
    | DObject(fields: seq<Entry<Doc>>)

  function Render(d: Doc): Text
    decreases d
  {
    match d
    case DNull => NULL_TEXT
    case DBool(b) => if b then TRUE_TEXT else FALSE_TEXT
    case DText(s) => Quote(s)
    case DList(items) => [OPEN_LIST] + Join(RenderAll(items)) + [CLOSE_LIST]
    case DObject(fields) => ObjectText(RenderFields(fields))
  }

  function RenderAll(ds: seq<Doc>): (r: seq<Text>)
    ensures |r| == |ds|
    decreases ds
  {
    if ds == [] then [] else [Render(ds[0])] + RenderAll(ds[1..])
  }

  function RenderFields(fs: seq<Entry<Doc>>): (r: seq<Entry<Text>>)
    ensures |r| == |fs|
    decreases fs
  {
    if fs == [] then [] else [Entry(fs[0].key, Render(fs[0].value))] + RenderFields(fs[1..])
  }

  // ---- a rendered document determines the document and its end

  function Tag(d: Doc): Unit {
    match d
    case DNull => 110
    case DBool(b) => if b then 116 else 102
    case DText(_) => QUOTE
    case DList(_) => OPEN_LIST
    case DObject(_) => OPEN_OBJECT
  }

  lemma StartsWithTag(d: Doc)
    ensures Render(d) != [] && Render(d)[0] == Tag(d)
  {
    assert NULL_TEXT[0] == CharUnit('n') && TRUE_TEXT[0] == CharUnit('t') && FALSE_TEXT[0] == CharUnit('f');
  }

  /** What follows the first of a list of parts. */
  function Follow(rest: seq<Text>, close: Unit, x: Text): Text {
    if rest == [] then [close] + x else [COMMA] + (Join(rest) + [close] + x)
  }

  lemma JoinHead(parts: seq<Text>, close: Unit, x: Text)
    ensures var t := Join(parts) + [close] + x;
            t == if parts == [] then [close] + x else parts[0] + Follow(parts[1..], close, x)
  {
  }

  /** The closing unit comes first exactly when there is nothing to close. */
  lemma JoinStart(parts: seq<Text>, close: Unit, x: Text)
    requires parts != [] ==> parts[0] != [] && parts[0][0] != close
    ensures (Join(parts) + [close] + x)[0] == close <==> parts == []
  {
    JoinHead(parts, close, x);
  }

  lemma SamePrefix(p: Text, x: Text, q: Text, y: Text)
    requires p + x == q + y && p == q
    ensures x == y
  {
    assert (p + x)[|p|..] == x && (q + y)[|q|..] == y;
  }

  lemma FollowHead(rest: seq<Text>, close: Unit, x: Text, other: seq<Text>, y: Text)
    requires Follow(rest, close, x) == Follow(other, close, y) && close != COMMA
    ensures rest == [] <==> other == []
    ensures Join(rest) + [close] + x == Join(other) + [close] + y
  {
    var t, u := Follow(rest, close, x), Follow(other, close, y);
    assert t[0] == u[0];
    assert t[1..] == u[1..];
    if rest != [] {
      assert t[1..] == Join(rest) + [close] + x && u[1..] == Join(other) + [close] + y;
    } else {
      assert Join(rest) + [close] + x == t && Join(other) + [close] + y == u;
    }
  }

  lemma RenderedStarts(ds: seq<Doc>)
    ensures ds != [] ==> RenderAll(ds)[0] != [] && RenderAll(ds)[0][0] != CLOSE_LIST
  {
    if ds != [] {
      StartsWithTag(ds[0]);
    }
  }

  lemma {:induction false} ItemsFree(ds: seq<Doc>, es: seq<Doc>, x: Text, y: Text)
    requires Join(RenderAll(ds)) + [CLOSE_LIST] + x == Join(RenderAll(es)) + [CLOSE_LIST] + y
    ensures ds == es && x == y
    decreases ds
  {
    var ps, qs := RenderAll(ds), RenderAll(es);
    JoinHead(ps, CLOSE_LIST, x);
    JoinHead(qs, CLOSE_LIST, y);
    RenderedStarts(ds);
    RenderedStarts(es);
    JoinStart(ps, CLOSE_LIST, x);
    JoinStart(qs, CLOSE_LIST, y);
    if ds == [] {
      SamePrefix([CLOSE_LIST], x, [CLOSE_LIST], y);
    } else {
      assert ps[1..] == RenderAll(ds[1..]) && qs[1..] == RenderAll(es[1..]);
      RenderFree(ds[0], es[0], Follow(ps[1..], CLOSE_LIST, x), Follow(qs[1..], CLOSE_LIST, y));
      FollowHead(ps[1..], CLOSE_LIST, x, qs[1..], y);
      ItemsFree(ds[1..], es[1..], x, y);
      assert ds == [ds[0]] + ds[1..] && es == [es[0]] + es[1..];
    }
  }

  lemma FieldShape(key: Text, value: Text, x: Text)
    ensures FieldText(Entry(key, value)) + x == Quote(key) + ([COLON] + (value + x))
  {
  }

  lemma FieldFree(f: Entry<Doc>, g: Entry<Doc>, x: Text, y: Text)
    requires FieldText(Entry(f.key, Render(f.value))) + x == FieldText(Entry(g.key, Render(g.value))) + y
    ensures f == g && x == y
    decreases f, 1
  {
    var p, q := Render(f.value) + x, Render(g.value) + y;
    FieldShape(f.key, Render(f.value), x);
    FieldShape(g.key, Render(g.value), y);
    QuoteFree(f.key, g.key, [COLON] + p, [COLON] + q);
    SamePrefix([COLON], p, [COLON], q);
    RenderFree(f.value, g.value, x, y);
  }

  lemma {:induction false} FieldsFree(fs: seq<Entry<Doc>>, gs: seq<Entry<Doc>>, x: Text, y: Text)
    requires Join(FieldTexts(RenderFields(fs))) + [CLOSE_OBJECT] + x == Join(FieldTexts(RenderFields(gs))) + [CLOSE_OBJECT] + y
    ensures fs == gs && x == y
    decreases fs
  {
    var ps, qs := FieldTexts(RenderFields(fs)), FieldTexts(RenderFields(gs));
    JoinHead(ps, CLOSE_OBJECT, x);
    JoinHead(qs, CLOSE_OBJECT, y);
    JoinStart(ps, CLOSE_OBJECT, x);
    JoinStart(qs, CLOSE_OBJECT, y);
    if fs == [] {
      SamePrefix([CLOSE_OBJECT], x, [CLOSE_OBJECT], y);
    } else {
      assert RenderFields(fs)[1..] == RenderFields(fs[1..]) && RenderFields(gs)[1..] == RenderFields(gs[1..]);
      assert ps[1..] == FieldTexts(RenderFields(fs[1..])) && qs[1..] == FieldTexts(RenderFields(gs[1..]));
      FieldFree(fs[0], gs[0], Follow(ps[1..], CLOSE_OBJECT, x), Follow(qs[1..], CLOSE_OBJECT, y));
      FollowHead(ps[1..], CLOSE_OBJECT, x, qs[1..], y);
      FieldsFree(fs[1..], gs[1..], x, y);
      assert fs == [fs[0]] + fs[1..] && gs == [gs[0]] + gs[1..];
    }
  }

  /** Rendering is injective and prefix-free, so a text is the rendering of at most one document. */
  lemma {:induction false} RenderFree(d: Doc, e: Doc, x: Text, y: Text)
    requires Render(d) + x == Render(e) + y
    ensures d == e && x == y
    decreases d
  {
    StartsWithTag(d);
    StartsWithTag(e);
    assert Tag(d) == (Render(d) + x)[0] == (Render(e) + y)[0] == Tag(e);
    match d
    case DText(s) => QuoteFree(s, e.s, x, y);
    case DList(ds) =>
      Unwrap(OPEN_LIST, Join(RenderAll(ds)), Join(RenderAll(e.items)), CLOSE_LIST, x, y);
      ItemsFree(ds, e.items, x, y);
    case DObject(fs) =>
      Unwrap(OPEN_OBJECT, Join(FieldTexts(RenderFields(fs))), Join(FieldTexts(RenderFields(e.fields))), CLOSE_OBJECT, x, y);
      FieldsFree(fs, e.fields, x, y);
    case _ =>
      SamePrefix(Render(d), x, Render(e), y);
  }

  lemma Unwrap(open: Unit, a: Text, b: Text, close: Unit, x: Text, y: Text)
    requires [open] + a + [close] + x == [open] + b + [close] + y
    ensures a + [close] + x == b + [close] + y
  {
    assert [open] + a + [close] + x == [open] + (a + [close] + x);
    assert [open] + b + [close] + y == [open] + (b + [close] + y);
    SamePrefix([open], a + [close] + x, [open], b + [close] + y);
  }
}
