/** What equality of canonical texts means: the same document, up to the order of keys at every depth. */
module CanonicalMeaning {
  import opened Collections
  import opened Sorting
  import opened CanonicalText
  import opened CanonicalJson

  function Normalise(nfc: Nfc, v: Json): Option<Doc>
    decreases v
  {
    match v
    case JNull => Some(DNull)
    case JBool(b) => Some(DBool(b))
    case JString(s) => Some(DText(nfc(s)))
    case JBigInt(n) => Some(DText(DecimalText(n)))
    case JNumber(_, _) => None
    case JUndefined => None
    case JOther => None
    case JArray(items) => (
      match NormaliseAll(nfc, items)
      case None => None
      case Some(ds) => Some(DList(ds)))
    case JObject(fields) => (
      match NormaliseFields(nfc, fields)
      case None => None
      case Some(es) => FinishDoc(es))
  }

  function FinishDoc(es: seq<Entry<Doc>>): Option<Doc> {
    if Distinct(KeysOf(es)) then Some(DObject(Sort(ByKey(), es))) else None
  }

  function NormaliseAll(nfc: Nfc, vs: seq<Json>): Option<seq<Doc>>
    decreases vs
  {
    if vs == [] then Some([])
    else
      match (Normalise(nfc, vs[0]), NormaliseAll(nfc, vs[1..]))
      case (Some(d), Some(ds)) => Some([d] + ds)
      case _ => None
  }

  function NormaliseFields(nfc: Nfc, fs: seq<Field>): Option<seq<Entry<Doc>>>
    decreases fs
  {
    if fs == [] then Some([])
    else
      match (Normalise(nfc, fs[0].value), NormaliseFields(nfc, fs[1..]))
      case (Some(d), Some(es)) => Some([Entry(nfc(fs[0].key), d)] + es)
      case _ => None
  }

  // ---- the text is the rendering of the normal form

  function RenderOption(d: Option<Doc>): Option<Text> {
    match d
    case None => None
    case Some(x) => Some(Render(x))
  }

  function RenderEntry(e: Entry<Doc>): Entry<Text> {
    Entry(e.key, Render(e.value))
  }

  lemma {:induction false} RenderFieldsIsMap(es: seq<Entry<Doc>>)
    ensures RenderFields(es) == Map(RenderEntry, es)
  {
    if es != [] {
      RenderFieldsIsMap(es[1..]);
      assert es == [es[0]] + es[1..];
    }
  }

  lemma SortRendered(es: seq<Entry<Doc>>)
    ensures RenderFields(Sort(ByKey(), es)) == Sort(ByKey(), RenderFields(es))
    ensures KeysOf(RenderFields(es)) == KeysOf(es)
  {
    RenderFieldsIsMap(es);
    RenderFieldsIsMap(Sort(ByKey(), es));
    SortMap(ByKey<Doc>(), ByKey<Text>(), RenderEntry, es);
  }

  lemma {:induction false} AllRender(nfc: Nfc, vs: seq<Json>)
    requires IsNormaliser(nfc)
    ensures CanonicaliseAll(nfc, vs) == match NormaliseAll(nfc, vs) { case None => None case Some(ds) => Some(RenderAll(ds)) }
    decreases vs
  {
    if vs != [] {
      CanonicaliseRenders(nfc, vs[0]);
      AllRender(nfc, vs[1..]);
    }
  }

  lemma {:induction false} FieldsRender(nfc: Nfc, fs: seq<Field>)
    requires IsNormaliser(nfc)
    ensures CanonicaliseFields(nfc, fs) == match NormaliseFields(nfc, fs) { case None => None case Some(es) => Some(RenderFields(es)) }
    decreases fs
  {
    if fs != [] {
      CanonicaliseRenders(nfc, fs[0].value);
      FieldsRender(nfc, fs[1..]);
    }
  }

  /** Keys were normalised when the entries were made; doing it again changes nothing. */
  lemma {:induction false} KeysAreNormal(nfc: Nfc, fs: seq<Field>)
    requires IsNormaliser(nfc)
    ensures CanonicaliseFields(nfc, fs).Some? ==> forall e :: e in CanonicaliseFields(nfc, fs).value ==> nfc(e.key) == e.key
  {
    if fs != [] {
      KeysAreNormal(nfc, fs[1..]);
    }
  }

  lemma NormalKeysStay(nfc: Nfc, es: seq<Entry<Text>>)
    requires forall e :: e in es ==> nfc(e.key) == e.key
    ensures NormaliseKeys(nfc, Sort(ByKey(), es)) == Sort(ByKey(), es)
  {
    var sorted := Sort(ByKey(), es);
    SameElements(sorted, es);
    assert forall i :: 0 <= i < |sorted| ==> sorted[i] in es;
  }

  lemma FinishRenders(nfc: Nfc, es: seq<Entry<Doc>>)
    requires forall e :: e in RenderFields(es) ==> nfc(e.key) == e.key
    ensures FinishObject(nfc, RenderFields(es)) == RenderOption(FinishDoc(es))
  {
    FieldsSettle(nfc, es);
    if Distinct(KeysOf(es)) {
      ObjectRendersAs(FinishDoc(es).value, Sort(ByKey<Doc>(), es));
    }
  }

  lemma ObjectRendersAs(d: Doc, es: seq<Entry<Doc>>)
    requires d == DObject(es)
    ensures Render(d) == ObjectText(RenderFields(es))
  {
  }

  lemma FieldsSettle(nfc: Nfc, es: seq<Entry<Doc>>)
    requires forall e :: e in RenderFields(es) ==> nfc(e.key) == e.key
    ensures NormaliseKeys(nfc, Sort(ByKey<Text>(), RenderFields(es))) == RenderFields(Sort(ByKey<Doc>(), es))
    ensures KeysOf(RenderFields(es)) == KeysOf(es)
  {
    NormalKeysStay(nfc, RenderFields(es));
    SortRendered(es);
  }

  lemma ObjectRenders(nfc: Nfc, j: Json, es: seq<Entry<Doc>>)
    requires j.JObject? && IsNormaliser(nfc) && NormaliseFields(nfc, j.fields) == Some(es) && CanonicaliseFields(nfc, j.fields) == Some(RenderFields(es))
    ensures Canonicalise(nfc, j) == RenderOption(Normalise(nfc, j))
  {
    KeysAreNormal(nfc, j.fields);
    FinishRenders(nfc, es);
  }

  lemma {:induction false} CanonicaliseRenders(nfc: Nfc, v: Json)
    requires IsNormaliser(nfc)
    ensures Canonicalise(nfc, v) == RenderOption(Normalise(nfc, v))
    decreases v
  {
    match v
    case JArray(items) => AllRender(nfc, items);
    case JObject(fields) =>
      FieldsRender(nfc, fields);
      if NormaliseFields(nfc, fields).Some? {
        ObjectRenders(nfc, v, NormaliseFields(nfc, fields).value);
      }
    case _ =>
  }

  /** One text, one document: equal texts have equal normal forms, and conversely. */
  lemma SameTextSameDoc(nfc: Nfc, v: Json, w: Json)
    requires IsNormaliser(nfc)
    ensures Canonicalise(nfc, v) == Canonicalise(nfc, w) <==> Normalise(nfc, v) == Normalise(nfc, w)
  {
    CanonicaliseRenders(nfc, v);
    CanonicaliseRenders(nfc, w);
    var d, e := Normalise(nfc, v), Normalise(nfc, w);
    if d.Some? && e.Some? && Render(d.value) == Render(e.value) {
      assert Render(d.value) + [] == Render(e.value) + [];
      RenderFree(d.value, e.value, [], []);
    }
  }

  // ---- the same document up to key order

  predicate IsText(v: Json) {
    v.JString? || v.JBigInt?
  }

  function TextOf(nfc: Nfc, v: Json): Text
    requires IsText(v)
  {
    if v.JString? then nfc(v.s) else DecimalText(v.n)
  }

  /** Equal texts, equal lists item by item, and objects with equal fields in any order. */
  ghost predicate SameDocument(nfc: Nfc, v: Json, w: Json)
    decreases v
  {
    match v
    case JNull => w.JNull?
    case JBool(b) => w == JBool(b)
    case JString(_) => IsText(w) && TextOf(nfc, v) == TextOf(nfc, w)
    case JBigInt(_) => IsText(w) && TextOf(nfc, v) == TextOf(nfc, w)
    case JArray(items) => w.JArray? && |items| == |w.items| && forall i :: 0 <= i < |items| ==> SameDocument(nfc, items[i], w.items[i])
    case JObject(fields) =>
      w.JObject? && |fields| == |w.fields| && forall i :: 0 <= i < |fields| ==> HasField(nfc, fields[i], w.fields)
    case _ => false
  }

  ghost predicate HasField(nfc: Nfc, f: Field, gs: seq<Field>)
    decreases f
  {
    exists j :: 0 <= j < |gs| && nfc(f.key) == nfc(gs[j].key) && SameDocument(nfc, f.value, gs[j].value)
  }

  lemma {:induction false} ItemsAt(nfc: Nfc, vs: seq<Json>)
    ensures NormaliseAll(nfc, vs).Some? ==>
              && |NormaliseAll(nfc, vs).value| == |vs|
              && forall i :: 0 <= i < |vs| ==> Normalise(nfc, vs[i]) == Some(NormaliseAll(nfc, vs).value[i])
  {
    if vs != [] {
      ItemsAt(nfc, vs[1..]);
      assert vs == [vs[0]] + vs[1..];
    }
  }

  function EntryOf(nfc: Nfc, f: Field): Option<Entry<Doc>> {
    match Normalise(nfc, f.value)
    case None => None
    case Some(d) => Some(Entry(nfc(f.key), d))
  }

  lemma {:induction false} FieldsAt(nfc: Nfc, fs: seq<Field>)
    ensures NormaliseFields(nfc, fs).Some? ==>
              && |NormaliseFields(nfc, fs).value| == |fs|
              && forall i :: 0 <= i < |fs| ==> EntryOf(nfc, fs[i]) == Some(NormaliseFields(nfc, fs).value[i])
  {
    if fs != [] {
      FieldsAt(nfc, fs[1..]);
      assert fs == [fs[0]] + fs[1..];
    }
  }

  lemma ByKeyIsTotal()
    ensures TotalPreorder(ByKey<Doc>())
  {
    var le := ByKey<Doc>();
    forall a, b ensures le(a, b) || le(b, a) {
      UnitsConnex(a.key, b.key);
    }
    forall a, b, c | le(a, b) && le(b, c) ensures le(a, c) {
      UnitsTransitive(a.key, b.key, c.key);
    }
  }

  lemma KeysDistinctEntries(es: seq<Entry<Doc>>)
    requires Distinct(KeysOf(es))
    ensures Distinct(es)
    ensures forall x, y :: x in es && y in es && ByKey<Doc>()(x, y) && ByKey<Doc>()(y, x) ==> x == y
  {
    var keys := KeysOf(es);
    assert forall i :: 0 <= i < |es| ==> keys[i] == es[i].key;
    forall x, y | x in es && y in es && ByKey<Doc>()(x, y) && ByKey<Doc>()(y, x) ensures x == y {
      UnitsConnex(x.key, y.key);
      assert forall i, j :: 0 <= i < |es| && 0 <= j < |es| && keys[i] == keys[j] ==> i == j;
    }
  }

  lemma SameObjects(es: seq<Entry<Doc>>, hs: seq<Entry<Doc>>)
    requires Distinct(KeysOf(es)) && Distinct(KeysOf(hs)) && |es| == |hs| && forall x :: x in es ==> x in hs
    ensures Sort(ByKey<Doc>(), es) == Sort(ByKey<Doc>(), hs)
  {
    KeysDistinctEntries(es);
    KeysDistinctEntries(hs);
    InsideSameLength(es, hs);
    ByKeyIsTotal();
    SortIgnoresOrder(ByKey<Doc>(), es, hs);
  }

  /** Key order is invisible at every depth. */
  lemma {:induction false} SameHasOneDoc(nfc: Nfc, v: Json, w: Json)
    requires Normalise(nfc, v).Some? && Normalise(nfc, w).Some? && SameDocument(nfc, v, w)
    ensures Normalise(nfc, v) == Normalise(nfc, w)
    decreases v
  {
    match v
    case JArray(items) =>
      ItemsAt(nfc, items);
      ItemsAt(nfc, w.items);
      forall i | 0 <= i < |items| ensures Normalise(nfc, items[i]) == Normalise(nfc, w.items[i]) {
        SameHasOneDoc(nfc, items[i], w.items[i]);
      }
      assert NormaliseAll(nfc, items).value == NormaliseAll(nfc, w.items).value;
    case JObject(fields) =>
      var es, hs := NormaliseFields(nfc, fields).value, NormaliseFields(nfc, w.fields).value;
      FieldsAt(nfc, fields);
      FieldsAt(nfc, w.fields);
      forall i | 0 <= i < |fields| ensures es[i] in hs {
        assert HasField(nfc, fields[i], w.fields);
        var j :| 0 <= j < |w.fields| && nfc(fields[i].key) == nfc(w.fields[j].key) && SameDocument(nfc, fields[i].value, w.fields[j].value);
        assert EntryOf(nfc, fields[i]) == Some(es[i]) && EntryOf(nfc, w.fields[j]) == Some(hs[j]);
        SameHasOneDoc(nfc, fields[i].value, w.fields[j].value);
        assert es[i] == hs[j];
      }
      SameObjects(es, hs);
    case _ =>
  }

  lemma SortedAlike(es: seq<Entry<Doc>>, hs: seq<Entry<Doc>>)
    requires Sort(ByKey<Doc>(), es) == Sort(ByKey<Doc>(), hs)
    ensures |es| == |hs| && forall x :: x in es <==> x in hs
  {
    assert multiset(es) == multiset(Sort(ByKey<Doc>(), es)) == multiset(hs);
    SameElements(es, hs);
  }

  lemma {:induction false} OneDocIsSame(nfc: Nfc, v: Json, w: Json)
    requires Normalise(nfc, v).Some? && Normalise(nfc, v) == Normalise(nfc, w)
    ensures SameDocument(nfc, v, w)
    decreases v
  {
    match v
    case JArray(items) =>
      ItemsAt(nfc, items);
      ItemsAt(nfc, w.items);
      forall i | 0 <= i < |items| ensures SameDocument(nfc, items[i], w.items[i]) {
        assert Normalise(nfc, items[i]) == Some(NormaliseAll(nfc, items).value[i]);
        OneDocIsSame(nfc, items[i], w.items[i]);
      }
    case JObject(fields) =>
      var es, hs := NormaliseFields(nfc, fields).value, NormaliseFields(nfc, w.fields).value;
      FieldsAt(nfc, fields);
      FieldsAt(nfc, w.fields);
      SortedAlike(es, hs);
      forall i | 0 <= i < |fields| ensures HasField(nfc, fields[i], w.fields) {
        var j := Counterpart(nfc, fields[i], es[i], w.fields, hs);
        OneDocIsSame(nfc, fields[i].value, w.fields[j].value);
      }
    case _ =>
  }

  /** The field of the other object that became the same entry. */
  lemma Counterpart(nfc: Nfc, f: Field, e: Entry<Doc>, gs: seq<Field>, hs: seq<Entry<Doc>>) returns (j: nat)
    requires EntryOf(nfc, f) == Some(e) && e in hs
    requires |hs| == |gs| && forall k :: 0 <= k < |gs| ==> EntryOf(nfc, gs[k]) == Some(hs[k])
    ensures j < |gs| && nfc(f.key) == nfc(gs[j].key) && Normalise(nfc, f.value).Some? && Normalise(nfc, f.value) == Normalise(nfc, gs[j].value)
  {
    j :| 0 <= j < |hs| && hs[j] == e;
    assert EntryOf(nfc, gs[j]) == Some(hs[j]);
  }

  /** Two values with canonical texts have one text exactly when they are one document up to key order. */
  lemma SameTextIffSame(nfc: Nfc, v: Json, w: Json)
    requires IsNormaliser(nfc) && Canonicalise(nfc, v).Some? && Canonicalise(nfc, w).Some?
    ensures Canonicalise(nfc, v) == Canonicalise(nfc, w) <==> SameDocument(nfc, v, w)
  {
    CanonicaliseRenders(nfc, v);
    CanonicaliseRenders(nfc, w);
    SameTextSameDoc(nfc, v, w);
    if Normalise(nfc, v) == Normalise(nfc, w) {
      OneDocIsSame(nfc, v, w);
    } else if SameDocument(nfc, v, w) {
      SameHasOneDoc(nfc, v, w);
    }
  }

  // ---- conversion of an ordinary object graph

  const MAX_SAFE_INTEGER := 0x1F_FFFF_FFFF_FFFF

  predicate IsSafe(whole: bool, i: int) {
    whole && -MAX_SAFE_INTEGER <= i <= MAX_SAFE_INTEGER
  }

  /** Integer counts become text, undefined fields disappear, and whatever has no canonical form is refused. */
  function ToCanonical(nfc: Nfc, v: Json): Option<Json>
    decreases v
  {
    match v
    case JNull => Some(v)
    case JBool(_) => Some(v)
    case JBigInt(_) => Some(v)
    case JString(s) => Some(JString(nfc(s)))
    case JNumber(whole, i) => if IsSafe(whole, i) then Some(JString(DecimalText(i))) else None
    case JUndefined => None
    case JOther => None
    case JArray(items) => (
      match ToCanonicalAll(nfc, items)
      case None => None
      case Some(vs) => Some(JArray(vs)))
    case JObject(fields) => (
      match ToCanonicalFields(nfc, fields)
      case None => None
      case Some(fs) => Some(JObject(fs)))
  }

  function ToCanonicalAll(nfc: Nfc, vs: seq<Json>): Option<seq<Json>>
    decreases vs
  {
    if vs == [] then Some([])
    else
      match (ToCanonicalAll(nfc, vs[..|vs| - 1]), ToCanonical(nfc, vs[|vs| - 1]))
      case (Some(front), Some(last)) => Some(front + [last])
      case _ => None
  }

  function ToCanonicalFields(nfc: Nfc, fs: seq<Field>): Option<seq<Field>>
    decreases fs
  {
    if fs == [] then Some([])
    else
      var f := fs[|fs| - 1];
      match ToCanonicalFields(nfc, fs[..|fs| - 1])
      case None => None
      case Some(front) =>
        if f.value.JUndefined? then Some(front)
        else
          match ToCanonical(nfc, f.value)
          case None => None
          case Some(v) => Some(front + [Field(f.key, v)])
  }

  method ToCanonicalValue(nfc: Nfc, v: Json) returns (r: Option<Json>)
    ensures r == ToCanonical(nfc, v)
    decreases v
  {
    match v
    case JArray(items) =>
      var out := ToCanonicalItems(nfc, items);
      r := if out.None? then None else Some(JArray(out.value));
    case JObject(fields) =>
      var out := ToCanonicalEntries(nfc, fields);
      r := if out.None? then None else Some(JObject(out.value));
    case _ => r := ToCanonical(nfc, v);
  }

  method ToCanonicalItems(nfc: Nfc, items: seq<Json>) returns (r: Option<seq<Json>>)
    ensures r == ToCanonicalAll(nfc, items)
    decreases items
  {
    var out: seq<Json> := [];
    for k := 0 to |items|
      invariant ToCanonicalAll(nfc, items[..k]) == Some(out)
    {
      PrefixStep(items, k);
      var item := ToCanonicalValue(nfc, items[k]);
      if item.None? {
        PrefixFails(nfc, items, k + 1);
        return None;
      }
      out := out + [item.value];
    }
    assert items[..|items|] == items;
    r := Some(out);
  }

  lemma EntriesStep(nfc: Nfc, front: seq<Field>, f: Field)
    requires ToCanonicalFields(nfc, front).Some?
    ensures ToCanonicalFields(nfc, front + [f]) ==
            if f.value.JUndefined? then ToCanonicalFields(nfc, front)
            else if ToCanonical(nfc, f.value).None? then None
            else Some(ToCanonicalFields(nfc, front).value + [Field(f.key, ToCanonical(nfc, f.value).value)])
  {
    assert (front + [f])[..|front|] == front;
  }

  method ToCanonicalEntries(nfc: Nfc, fields: seq<Field>) returns (r: Option<seq<Field>>)
    ensures r == ToCanonicalFields(nfc, fields)
    decreases fields
  {
    var out: seq<Field> := [];
    for k := 0 to |fields|
      invariant ToCanonicalFields(nfc, fields[..k]) == Some(out)
    {
      PrefixStep(fields, k);
      EntriesStep(nfc, fields[..k], fields[k]);
      if !fields[k].value.JUndefined? {
        var value := ToCanonicalValue(nfc, fields[k].value);
        if value.None? {
          FieldPrefixFails(nfc, fields, k + 1);
          return None;
        }
        out := out + [Field(fields[k].key, value.value)];
      }
    }
    assert fields[..|fields|] == fields;
    r := Some(out);
  }

  lemma {:induction false} PrefixFails(nfc: Nfc, vs: seq<Json>, k: nat)
    requires k <= |vs| && ToCanonicalAll(nfc, vs[..k]).None?
    ensures ToCanonicalAll(nfc, vs).None?
  {
    if k < |vs| {
      assert vs[..|vs| - 1][..k] == vs[..k];
      PrefixFails(nfc, vs[..|vs| - 1], k);
    } else {
      assert vs[..k] == vs;
    }
  }

  lemma {:induction false} FieldPrefixFails(nfc: Nfc, fs: seq<Field>, k: nat)
    requires k <= |fs| && ToCanonicalFields(nfc, fs[..k]).None?
    ensures ToCanonicalFields(nfc, fs).None?
  {
    if k < |fs| {
      assert fs[..|fs| - 1][..k] == fs[..k];
      FieldPrefixFails(nfc, fs[..|fs| - 1], k);
    } else {
      assert fs[..k] == fs;
    }
  }

  function CanonicalStringify(nfc: Nfc, v: Json): Option<Text> {
    match ToCanonical(nfc, v)
    case None => None
    case Some(c) => Canonicalise(nfc, c)
  }

  /** An undefined field and an absent one have one text. */
  lemma UndefinedIsAbsent(nfc: Nfc, before: seq<Field>, key: Text, after: seq<Field>)
    ensures CanonicalStringify(nfc, JObject(before + [Field(key, JUndefined)] + after)) == CanonicalStringify(nfc, JObject(before + after))
  {
    SkipUndefined(nfc, before, key, after);
  }

  lemma {:induction false} SkipUndefined(nfc: Nfc, before: seq<Field>, key: Text, after: seq<Field>)
    ensures ToCanonicalFields(nfc, before + [Field(key, JUndefined)] + after) == ToCanonicalFields(nfc, before + after)
  {
    var u := [Field(key, JUndefined)];
    if after == [] {
      assert before + u + after == before + u && before + after == before;
      assert (before + u)[..|before|] == before;
    } else {
      var n := |after| - 1;
      assert (before + u + after)[..|before + u + after| - 1] == before + u + after[..n];
      assert (before + after)[..|before + after| - 1] == before + after[..n];
      SkipUndefined(nfc, before, key, after[..n]);
    }
  }

  // ---- exactly which graphs have a canonical text

  predicate Present(f: Field) {
    !f.value.JUndefined?
  }

  /** No function, symbol, fraction, unsafe count or undefined item, and no two present keys with one normal form. */
  ghost predicate Supported(nfc: Nfc, v: Json)
    decreases v
  {
    match v
    case JNumber(whole, i) => IsSafe(whole, i)
    case JUndefined => false
    case JOther => false
    case JArray(items) => forall i :: 0 <= i < |items| ==> Supported(nfc, items[i])
    case JObject(fields) =>
      && (forall i :: 0 <= i < |fields| && Present(fields[i]) ==> Supported(nfc, fields[i].value))
      && Distinct(PresentKeys(nfc, fields))
    case _ => true
  }

  function NormalKeys(nfc: Nfc, fs: seq<Field>): seq<Text> {
    Map((f: Field) => nfc(f.key), fs)
  }

  function PresentKeys(nfc: Nfc, fs: seq<Field>): seq<Text> {
    NormalKeys(nfc, Filter((f: Field) => Present(f), fs))
  }

  ghost predicate Converts(nfc: Nfc, v: Json) {
    ToCanonical(nfc, v).Some? && Normalise(nfc, ToCanonical(nfc, v).value).Some?
  }

  lemma {:induction false} ConvertedItems(nfc: Nfc, vs: seq<Json>)
    ensures ToCanonicalAll(nfc, vs).Some? <==> forall i :: 0 <= i < |vs| ==> ToCanonical(nfc, vs[i]).Some?
    ensures ToCanonicalAll(nfc, vs).Some? ==>
              && |ToCanonicalAll(nfc, vs).value| == |vs|
              && forall i :: 0 <= i < |vs| ==> ToCanonical(nfc, vs[i]) == Some(ToCanonicalAll(nfc, vs).value[i])
  {
    if vs != [] {
      ConvertedItems(nfc, vs[..|vs| - 1]);
    }
  }

  lemma {:induction false} NormalItems(nfc: Nfc, vs: seq<Json>)
    ensures NormaliseAll(nfc, vs).Some? <==> forall i :: 0 <= i < |vs| ==> Normalise(nfc, vs[i]).Some?
  {
    if vs != [] {
      NormalItems(nfc, vs[1..]);
      assert vs == [vs[0]] + vs[1..];
    }
  }

  lemma ArrayConverts(nfc: Nfc, vs: seq<Json>)
    ensures Converts(nfc, JArray(vs)) <==> forall i :: 0 <= i < |vs| ==> Converts(nfc, vs[i])
  {
    ConvertedItems(nfc, vs);
    if ToCanonicalAll(nfc, vs).Some? {
      NormalItems(nfc, ToCanonicalAll(nfc, vs).value);
    }
  }

  /** Every present field becomes one converted field, in order. */
  lemma {:induction false} ConvertedFields(nfc: Nfc, fs: seq<Field>)
    ensures ToCanonicalFields(nfc, fs).Some? <==> AllCanonical(nfc, fs)
    ensures ToCanonicalFields(nfc, fs).Some? ==>
              && NormalKeys(nfc, ToCanonicalFields(nfc, fs).value) == PresentKeys(nfc, fs)
              && (AllNormal(nfc, ToCanonicalFields(nfc, fs).value) <==> AllConvert(nfc, fs))
  {
    if fs != [] {
      var front, f := fs[..|fs| - 1], fs[|fs| - 1];
      ConvertedFields(nfc, front);
      assert fs == front + [f];
      ConvertPush(nfc, front, f);
      if ToCanonicalFields(nfc, fs).Some? && Present(f) {
        AllNormalPush(nfc, ToCanonicalFields(nfc, front).value, Field(f.key, ToCanonical(nfc, f.value).value));
      }
    }
  }

  ghost predicate AllCanonical(nfc: Nfc, fs: seq<Field>) {
    forall i :: 0 <= i < |fs| && Present(fs[i]) ==> ToCanonical(nfc, fs[i].value).Some?
  }

  lemma ConvertPush(nfc: Nfc, front: seq<Field>, f: Field)
    ensures AllCanonical(nfc, front + [f]) <==> AllCanonical(nfc, front) && (Present(f) ==> ToCanonical(nfc, f.value).Some?)
    ensures AllConvert(nfc, front + [f]) <==> AllConvert(nfc, front) && (Present(f) ==> Converts(nfc, f.value))
  {
    var all := front + [f];
    assert all[|front|] == f && forall i :: 0 <= i < |front| ==> all[i] == front[i];
  }

  ghost predicate AllConvert(nfc: Nfc, fs: seq<Field>) {
    forall i :: 0 <= i < |fs| && Present(fs[i]) ==> Converts(nfc, fs[i].value)
  }

  lemma AllNormalPush(nfc: Nfc, fs: seq<Field>, f: Field)
    ensures AllNormal(nfc, fs + [f]) <==> AllNormal(nfc, fs) && Normalise(nfc, f.value).Some?
  {
    var all := fs + [f];
    if AllNormal(nfc, all) {
      forall i | 0 <= i < |fs| ensures Normalise(nfc, fs[i].value).Some? {
        assert all[i] == fs[i];
      }
      assert all[|fs|] == f;
    }
  }

  predicate AllNormal(nfc: Nfc, fs: seq<Field>) {
    forall i :: 0 <= i < |fs| ==> Normalise(nfc, fs[i].value).Some?
  }

  lemma {:induction false} NormalFields(nfc: Nfc, fs: seq<Field>)
    ensures NormaliseFields(nfc, fs).Some? <==> AllNormal(nfc, fs)
    ensures NormaliseFields(nfc, fs).Some? ==> KeysOf(NormaliseFields(nfc, fs).value) == NormalKeys(nfc, fs)
  {
    if fs != [] {
      NormalFields(nfc, fs[1..]);
      assert fs == [fs[0]] + fs[1..];
    }
  }

  lemma ObjectConverts(nfc: Nfc, fs: seq<Field>)
    ensures Converts(nfc, JObject(fs)) <==>
              (forall i :: 0 <= i < |fs| && Present(fs[i]) ==> Converts(nfc, fs[i].value)) && Distinct(PresentKeys(nfc, fs))
  {
    ConvertedFields(nfc, fs);
    if ToCanonicalFields(nfc, fs).Some? {
      NormalFields(nfc, ToCanonicalFields(nfc, fs).value);
    }
  }

  lemma {:induction false} ConvertsIffSupported(nfc: Nfc, v: Json)
    ensures Converts(nfc, v) <==> Supported(nfc, v)
    decreases v
  {
    match v
    case JArray(items) =>
      ArrayConverts(nfc, items);
      forall i | 0 <= i < |items| ensures Converts(nfc, items[i]) <==> Supported(nfc, items[i]) {
        ConvertsIffSupported(nfc, items[i]);
      }
    case JObject(fields) =>
      ObjectConverts(nfc, fields);
      forall i | 0 <= i < |fields| ensures Converts(nfc, fields[i].value) <==> Supported(nfc, fields[i].value) {
        ConvertsIffSupported(nfc, fields[i].value);
      }
    case _ =>
  }

  /** A graph has a canonical text exactly when it is supported; equal texts mean one document up to key order. */
  lemma StringifyMeaning(nfc: Nfc, v: Json, w: Json)
    requires IsNormaliser(nfc)
    ensures CanonicalStringify(nfc, v).Some? <==> Supported(nfc, v)
    ensures Supported(nfc, v) && Supported(nfc, w) ==>
              && ToCanonical(nfc, v).Some? && ToCanonical(nfc, w).Some?
              && (CanonicalStringify(nfc, v) == CanonicalStringify(nfc, w) <==> SameDocument(nfc, ToCanonical(nfc, v).value, ToCanonical(nfc, w).value))
  {
    StringifyDefined(nfc, v);
    StringifyDefined(nfc, w);
    if Supported(nfc, v) && Supported(nfc, w) {
      SameTextIffSame(nfc, ToCanonical(nfc, v).value, ToCanonical(nfc, w).value);
    }
  }

  lemma StringifyDefined(nfc: Nfc, v: Json)
    requires IsNormaliser(nfc)
    ensures CanonicalStringify(nfc, v).Some? <==> Supported(nfc, v)
    ensures Supported(nfc, v) ==> ToCanonical(nfc, v).Some? && CanonicalStringify(nfc, v) == Canonicalise(nfc, ToCanonical(nfc, v).value)
  {
    ConvertsIffSupported(nfc, v);
    if ToCanonical(nfc, v).Some? {
      CanonicaliseRenders(nfc, ToCanonical(nfc, v).value);
    }
  }
}
