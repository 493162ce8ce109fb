// Reading a canonical text back: the document it renders,
// which canonicalises to the same text.
module CanonicalParse {
  import opened Collections
  import opened Sorting
  import opened CanonicalText
  import opened CanonicalJson
  import opened CanonicalMeaning
  import opened JsonReader
  import Keys

  /** The value `JSON.parse` builds from the rendering of a document. */
  function JsonOf(d: Doc): Json
    decreases d
  {
    match d
    case DNull => JNull
    case DBool(b) => JBool(b)
    case DText(s) => JString(s)
    case DList(items) => JArray(JsonOfAll(items))
    case DObject(fields) => JObject(JsonOfFields(fields))
  }

  function JsonOfAll(ds: seq<Doc>): (r: seq<Json>)
    ensures |r| == |ds|
    decreases ds
  {
    if ds == [] then [] else [JsonOf(ds[0])] + JsonOfAll(ds[1..])
  }

  function JsonOfFields(fs: seq<Entry<Doc>>): (r: seq<Field>)
    ensures |r| == |fs|
    decreases fs
  {
    if fs == [] then [] else [Field(fs[0].key, JsonOf(fs[0].value))] + JsonOfFields(fs[1..])
  }

  /** Texts in normal form, and objects sorted by key without repetition. */
  ghost predicate NormalDoc(nfc: Nfc, d: Doc)
    decreases d
  {
    match d
    case DText(s) => nfc(s) == s
    case DList(items) => forall i :: 0 <= i < |items| ==> NormalDoc(nfc, items[i])
    case DObject(fields) =>
      && (forall i :: 0 <= i < |fields| ==> nfc(fields[i].key) == fields[i].key && NormalDoc(nfc, fields[i].value))
      && Distinct(KeysOf(fields)) && SortedBy(ByKey<Doc>(), fields)
    case _ => true
  }

  predicate IsAscii(s: Text) {
    forall i :: 0 <= i < |s| ==> s[i] < 128
  }

  /** Normalisation form C is idempotent and leaves ASCII alone. */
  ghost predicate IsNfc(nfc: Nfc) {
    IsNormaliser(nfc) && forall s :: IsAscii(s) ==> nfc(s) == s
  }

  lemma DecimalIsAscii(n: int)
    ensures IsAscii(DecimalText(n))
  {
    var s := Keys.Decimal(n);
    assert forall c :: c in Keys.DIGITS ==> c as int < 128;
    forall i | 0 <= i < |s| ensures s[i] as int < 128 {
      assert s[i] in s;
      assert s[i] == '-' || s[i] in Keys.DIGITS;
    }
  }

  // ---- what normalisation produces is normal

  lemma {:induction false} NormaliseIsNormal(nfc: Nfc, v: Json)
    requires IsNfc(nfc) && Normalise(nfc, v).Some?
    ensures NormalDoc(nfc, Normalise(nfc, v).value)
    decreases v
  {
    match v
    case JBigInt(n) => DecimalIsAscii(n);
    case JArray(items) =>
      ItemsAt(nfc, items);
      forall i | 0 <= i < |items| ensures NormalDoc(nfc, NormaliseAll(nfc, items).value[i]) {
        assert Normalise(nfc, items[i]) == Some(NormaliseAll(nfc, items).value[i]);
        NormaliseIsNormal(nfc, items[i]);
      }
    case JObject(fields) =>
      var es := NormaliseFields(nfc, fields).value;
      FieldsAt(nfc, fields);
      forall i | 0 <= i < |es| ensures nfc(es[i].key) == es[i].key && NormalDoc(nfc, es[i].value) {
        assert EntryOf(nfc, fields[i]) == Some(es[i]);
        NormaliseIsNormal(nfc, fields[i].value);
      }
      SortedObjectIsNormal(nfc, es);
    case _ =>
  }

  lemma SortedObjectIsNormal(nfc: Nfc, es: seq<Entry<Doc>>)
    requires Distinct(KeysOf(es))
    requires forall i :: 0 <= i < |es| ==> nfc(es[i].key) == es[i].key && NormalDoc(nfc, es[i].value)
    ensures NormalDoc(nfc, DObject(Sort(ByKey(), es)))
  {
    var sorted := Sort(ByKey<Doc>(), es);
    SameElements(sorted, es);
    ByKeyIsTotal();
    SortSorts(ByKey<Doc>(), es);
    forall i | 0 <= i < |sorted| ensures nfc(sorted[i].key) == sorted[i].key && NormalDoc(nfc, sorted[i].value) {
      assert sorted[i] in es;
    }
    SortKeepsKeys(es);
  }

  function KeyOf(): Entry<Doc> -> Text {
    (e: Entry<Doc>) => e.key
  }

  lemma SortKeepsKeys(es: seq<Entry<Doc>>)
    requires Distinct(KeysOf(es))
    ensures Distinct(KeysOf(Sort(ByKey<Doc>(), es)))
  {
    var sorted := Sort(ByKey<Doc>(), es);
    MapMultiset(KeyOf(), es, sorted);
    assert Map(KeyOf(), es) == KeysOf(es) && Map(KeyOf(), sorted) == KeysOf(sorted);
    DistinctPermuted(KeysOf(es), KeysOf(sorted));
  }

  // ---- a normal document is its own normal form

  lemma ItemsStep(nfc: Nfc, v: Json, vs: seq<Json>)
    requires Normalise(nfc, v).Some? && NormaliseAll(nfc, vs).Some?
    ensures NormaliseAll(nfc, [v] + vs) == Some([Normalise(nfc, v).value] + NormaliseAll(nfc, vs).value)
  {
    assert ([v] + vs)[1..] == vs;
  }

  lemma FieldsStep(nfc: Nfc, f: Field, fs: seq<Field>)
    requires Normalise(nfc, f.value).Some? && NormaliseFields(nfc, fs).Some?
    ensures NormaliseFields(nfc, [f] + fs) == Some([Entry(nfc(f.key), Normalise(nfc, f.value).value)] + NormaliseFields(nfc, fs).value)
  {
    assert ([f] + fs)[1..] == fs;
  }

  lemma {:induction false} ParsedItems(nfc: Nfc, ds: seq<Doc>)
    requires forall i :: 0 <= i < |ds| ==> NormalDoc(nfc, ds[i])
    ensures NormaliseAll(nfc, JsonOfAll(ds)) == Some(ds)
    decreases ds
  {
    if ds != [] {
      ParsedNormalises(nfc, ds[0]);
      ParsedItems(nfc, ds[1..]);
      ItemsStep(nfc, JsonOf(ds[0]), JsonOfAll(ds[1..]));
      assert ds == [ds[0]] + ds[1..];
    }
  }

  lemma {:induction false} ParsedFields(nfc: Nfc, es: seq<Entry<Doc>>)
    requires forall i :: 0 <= i < |es| ==> nfc(es[i].key) == es[i].key && NormalDoc(nfc, es[i].value)
    ensures NormaliseFields(nfc, JsonOfFields(es)) == Some(es)
    decreases es
  {
    if es != [] {
      ParsedNormalises(nfc, es[0].value);
      ParsedFields(nfc, es[1..]);
      FieldsStep(nfc, Field(es[0].key, JsonOf(es[0].value)), JsonOfFields(es[1..]));
      assert es == [es[0]] + es[1..];
    }
  }

  lemma {:induction false} ParsedNormalises(nfc: Nfc, d: Doc)
    requires NormalDoc(nfc, d)
    ensures Normalise(nfc, JsonOf(d)) == Some(d)
    decreases d
  {
    match d
    case DList(items) => ParsedItems(nfc, items);
    case DObject(fields) =>
      ParsedFields(nfc, fields);
      SortedStays(fields);
      ObjectFinishes(nfc, JsonOf(d), fields, d);
    case _ =>
  }

  lemma ObjectFinishes(nfc: Nfc, j: Json, es: seq<Entry<Doc>>, d: Doc)
    requires j.JObject? && NormaliseFields(nfc, j.fields) == Some(es) && FinishDoc(es) == Some(d)
    ensures Normalise(nfc, j) == Some(d)
  {
  }

  lemma SortedStays(es: seq<Entry<Doc>>)
    requires Distinct(KeysOf(es)) && SortedBy(ByKey<Doc>(), es)
    ensures FinishDoc(es) == Some(DObject(es))
  {
    SortOfSorted(ByKey<Doc>(), es);
  }

  lemma {:induction false} ParsedItemsConvert(nfc: Nfc, ds: seq<Doc>)
    requires forall i :: 0 <= i < |ds| ==> NormalDoc(nfc, ds[i])
    ensures forall i :: 0 <= i < |ds| ==> JsonOfAll(ds)[i] == JsonOf(ds[i])
    ensures ToCanonicalAll(nfc, JsonOfAll(ds)) == Some(JsonOfAll(ds))
    decreases ds, 1
  {
    ItemsIndex(ds);
    var vs := JsonOfAll(ds);
    forall i | 0 <= i < |vs| ensures ToCanonical(nfc, vs[i]) == Some(vs[i]) {
      ParsedConverts(nfc, ds[i]);
    }
    ConvertedItems(nfc, vs);
    assert ToCanonicalAll(nfc, vs).value == vs;
  }

  lemma {:induction false} ItemsIndex(ds: seq<Doc>)
    ensures forall i :: 0 <= i < |ds| ==> JsonOfAll(ds)[i] == JsonOf(ds[i])
  {
    if ds != [] {
      ItemsIndex(ds[1..]);
    }
  }

  lemma {:induction false} FieldsIndex(es: seq<Entry<Doc>>)
    ensures forall i :: 0 <= i < |es| ==> JsonOfFields(es)[i] == Field(es[i].key, JsonOf(es[i].value))
  {
    if es != [] {
      FieldsIndex(es[1..]);
    }
  }

  lemma {:induction false} FieldsFixed(nfc: Nfc, fs: seq<Field>)
    requires forall i :: 0 <= i < |fs| ==> !fs[i].value.JUndefined? && ToCanonical(nfc, fs[i].value) == Some(fs[i].value)
    ensures ToCanonicalFields(nfc, fs) == Some(fs)
  {
    if fs != [] {
      FieldsFixed(nfc, fs[..|fs| - 1]);
      assert fs == fs[..|fs| - 1] + [fs[|fs| - 1]];
    }
  }

  lemma NeverUndefined(d: Doc)
    ensures !JsonOf(d).JUndefined?
  {
  }

  lemma {:induction false} ParsedConverts(nfc: Nfc, d: Doc)
    requires NormalDoc(nfc, d)
    ensures ToCanonical(nfc, JsonOf(d)) == Some(JsonOf(d))
    decreases d
  {
    match d
    case DList(items) => ParsedItemsConvert(nfc, items);
    case DObject(fields) =>
      ParsedFieldsConvert(nfc, fields);
      ObjectStays(nfc, JsonOf(d));
    case _ =>
  }

  lemma ObjectStays(nfc: Nfc, j: Json)
    requires j.JObject? && ToCanonicalFields(nfc, j.fields) == Some(j.fields)
    ensures ToCanonical(nfc, j) == Some(j)
  {
  }

  lemma {:induction false} ParsedFieldsConvert(nfc: Nfc, es: seq<Entry<Doc>>)
    requires forall i :: 0 <= i < |es| ==> NormalDoc(nfc, es[i].value)
    ensures ToCanonicalFields(nfc, JsonOfFields(es)) == Some(JsonOfFields(es))
    decreases es, 1
  {
    var fs := JsonOfFields(es);
    FieldsIndex(es);
    forall i | 0 <= i < |fs| ensures !fs[i].value.JUndefined? && ToCanonical(nfc, fs[i].value) == Some(fs[i].value) {
      assert fs[i] == Field(es[i].key, JsonOf(es[i].value));
      NeverUndefined(es[i].value);
      ParsedConverts(nfc, es[i].value);
    }
    FieldsFixed(nfc, fs);
  }

  /** Reading a canonical text and writing it again gives the same text. */
  lemma ParsedStringifies(nfc: Nfc, d: Doc)
    requires IsNfc(nfc) && NormalDoc(nfc, d)
    ensures CanonicalStringify(nfc, JsonOf(d)) == Some(Render(d))
  {
    ParsedConverts(nfc, d);
    ParsedNormalises(nfc, d);
    CanonicaliseRenders(nfc, JsonOf(d));
  }

  /** `JSON.parse(canonicalStringify(v))`, where v has a canonical text: the text is written and read again. */
  function Reparsed(nfc: Nfc, v: Json): Option<Json> {
    match CanonicalStringify(nfc, v)
    case None => None
    case Some(text) =>
      match ReadText(text)
      case None => None
      case Some(d) => Some(JsonOf(d))
  }

  /** The normal form of the canonical value, where there is one. */
  function DocumentOf(nfc: Nfc, v: Json): Option<Doc> {
    match ToCanonical(nfc, v)
    case None => None
    case Some(c) => Normalise(nfc, c)
  }

  lemma TextOfDocument(nfc: Nfc, v: Json)
    requires IsNormaliser(nfc)
    ensures CanonicalStringify(nfc, v) == match DocumentOf(nfc, v) case None => None case Some(d) => Some(Render(d))
  {
    var c := ToCanonical(nfc, v);
    if c.Some? {
      CanonicaliseRenders(nfc, c.value);
    }
  }

  /** What is read back from the text is the document the value stands for. */
  lemma ReparsedIsDocument(nfc: Nfc, v: Json)
    requires IsNormaliser(nfc)
    ensures Reparsed(nfc, v) == match DocumentOf(nfc, v) case None => None case Some(d) => Some(JsonOf(d))
  {
    TextOfDocument(nfc, v);
    var d := DocumentOf(nfc, v);
    if d.Some? {
      ReadTextOfRender(d.value);
    }
  }

  /** A canonical text, once read, is written as the same text. */
  lemma CanonicalTextIsStable(nfc: Nfc, v: Json)
    requires IsNfc(nfc)
    ensures Reparsed(nfc, v).Some? <==> CanonicalStringify(nfc, v).Some?
    ensures Reparsed(nfc, v).Some? ==> CanonicalStringify(nfc, Reparsed(nfc, v).value) == CanonicalStringify(nfc, v)
  {
    TextOfDocument(nfc, v);
    ReparsedIsDocument(nfc, v);
    var d := DocumentOf(nfc, v);
    if d.Some? {
      NormaliseIsNormal(nfc, ToCanonical(nfc, v).value);
      ParsedStringifies(nfc, d.value);
    }
  }
}
