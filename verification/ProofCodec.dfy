/** The proof-input codec: named fields are read back by a schema, and the whole text must match. */
module ProofCodec {
  import opened Collections
  import opened Sorting
  import opened CanonicalText
  import opened CanonicalJson
  import opened CanonicalMeaning
  import opened CanonicalParse
  import Keys
  import Scaling
  import ProofInputs

  /** How each field of a record is read. */
  datatype Schema =
    | SText
    | SBool
    | SUint
    | SCount
    | SChoice(choices: seq<Text>)
    | SNullable(inner: Schema)
    | SArray(item: Schema)
    | SRecord(slots: seq<Slot>)

  datatype Slot = Slot(key: Text, schema: Schema)

  /** A typed value: a `bigint` amount and a `number` count are different things. */
  datatype Val =
    | VText(s: Text)
    | VBool(b: bool)
    | VUint(n: int)
    | VCount(n: int)
    | VNull
    | VList(items: seq<Val>)
    | VRecord(fields: seq<VField>)

  datatype VField = VField(key: Text, value: Val)

  // ---- decimal amounts

  const UINT_END: int := ProofInputs.MAX_UINT256 + 1

  predicate IsDigitText(s: Text) {
    s != [] && (forall i :: 0 <= i < |s| ==> 48 <= s[i] <= 57) && (|s| == 1 || s[0] != 48)
  }

  function NumberOf(s: Text): int {
    if s == [] then 0 else 10 * NumberOf(s[..|s| - 1]) + s[|s| - 1] - 48
  }

  /** Canonical decimal, at most 78 digits, below 2^256. */
  function ParseUint(s: Text): Option<int> {
    if IsDigitText(s) && |s| <= 78 && NumberOf(s) < UINT_END then Some(NumberOf(s)) else None
  }

  lemma DigitUnit(k: nat)
    requires k < 10
    ensures CharUnit(Keys.DIGITS[k]) == 48 + k
  {
  }

  lemma {:induction false} DigitsRead(n: nat)
    ensures var s := Ascii(Keys.Digits(n)); IsDigitText(s) && NumberOf(s) == n && (n > 0 ==> s[0] != 48)
  {
    var s := Ascii(Keys.Digits(n));
    if n < 10 {
      DigitUnit(n);
      assert s == [48 + n];
      assert s[..0] == [];
    } else {
      DigitsRead(n / 10);
      DigitUnit(n % 10);
      var front := Ascii(Keys.Digits(n / 10));
      assert s == front + [48 + n % 10];
      assert s[..|s| - 1] == front;
    }
  }

  lemma {:induction false} DigitsFit(n: nat, k: nat)
    requires k >= 1 && n < Scaling.Pow10(k)
    ensures |Keys.Digits(n)| <= k
  {
    if n >= 10 {
      assert k > 1 by {
        assert Scaling.Pow10(1) == 10 * Scaling.Pow10(0);
      }
      DigitsFit(n / 10, k - 1);
    }
  }

  /** Thirteen digits at a time. */
  lemma PowerOfThirteen(p: int)
    requires p == Scaling.Pow10(13)
    ensures Scaling.Pow10(78) == (p * (p * p)) * (p * (p * p))
  {
    Scaling.Pow10Adds(13, 13);
    Scaling.Pow10Adds(13, 26);
    Scaling.Pow10Adds(39, 39);
  }

  lemma ThirteenDigits()
    ensures Scaling.Pow10(13) == 10_000000_000000
  {
    assert Scaling.Pow10(6) == 1_000000;
    Scaling.Pow10Adds(6, 7);
    assert Scaling.Pow10(7) == 10 * Scaling.Pow10(6);
  }

  lemma UintFits()
    ensures UINT_END <= Scaling.Pow10(78)
  {
    ThirteenDigits();
    PowerOfThirteen(10_000000_000000);
  }

  lemma UintReads(n: nat)
    requires n < UINT_END
    ensures ParseUint(DecimalText(n)) == Some(n)
  {
    DigitsRead(n);
    UintFits();
    DigitsFit(n, 78);
  }

  // ---- decoding

  function Lookup(fields: seq<Field>, key: Text): Json {
    if fields == [] then JUndefined
    else if fields[0].key == key then fields[0].value
    else Lookup(fields[1..], key)
  }

  function Parse(s: Schema, j: Json): Option<Val>
    decreases s
  {
    match s
    case SText => if j.JString? then Some(VText(j.s)) else None
    case SBool => if j.JBool? then Some(VBool(j.b)) else None
    case SUint => ParseAmount(j, UINT_END - 1, (n: int) => VUint(n))
    case SCount => ParseAmount(j, MAX_SAFE_INTEGER, (n: int) => VCount(n))
    case SChoice(choices) => if j.JString? && j.s in choices then Some(VText(j.s)) else None
    case SNullable(inner) => if j.JNull? then Some(VNull) else Parse(inner, j)
    case SArray(item) =>
      if j.JArray? && forall i :: 0 <= i < |j.items| ==> Parse(item, j.items[i]).Some? then
        Some(VList(seq(|j.items|, i requires 0 <= i < |j.items| => Parse(item, j.items[i]).value)))
      else None
    case SRecord(slots) =>
      if j.JObject? && forall i :: 0 <= i < |slots| ==> Parse(slots[i].schema, Lookup(j.fields, slots[i].key)).Some? then
        Some(VRecord(seq(|slots|, i requires 0 <= i < |slots| => VField(slots[i].key, Parse(slots[i].schema, Lookup(j.fields, slots[i].key)).value))))
      else None
  }

  function ParseAmount(j: Json, max: int, make: int -> Val): Option<Val> {
    if !j.JString? then None
    else
      match ParseUint(j.s)
      case None => None
      case Some(n) => if n <= max then Some(make(n)) else None
  }

  function ToJson(v: Val): Json
    decreases v
  {
    match v
    case VText(s) => JString(s)
    case VBool(b) => JBool(b)
    case VUint(n) => JBigInt(n)
    case VCount(n) => JNumber(true, n)
    case VNull => JNull
    case VList(items) => JArray(seq(|items|, i requires 0 <= i < |items| => ToJson(items[i])))
    case VRecord(fields) => JObject(seq(|fields|, i requires 0 <= i < |fields| => Field(fields[i].key, ToJson(fields[i].value))))
  }

  /** Named fields first; then the text of what was read must be the text of what was given. */
  function Decode(nfc: Nfc, s: Schema, j: Json): Option<Val> {
    match Parse(s, j)
    case None => None
    case Some(v) =>
      var mine, given := CanonicalStringify(nfc, ToJson(v)), CanonicalStringify(nfc, j);
      if mine.Some? && given.Some? && mine == given then Some(v) else None
  }

  function Encode(nfc: Nfc, v: Val): Option<Json> {
    Reparsed(nfc, ToJson(v))
  }

  // ---- values a schema describes

  ghost predicate Fits(nfc: Nfc, s: Schema, v: Val)
    decreases s
  {
    match s
    case SText => v.VText? && nfc(v.s) == v.s
    case SBool => v.VBool?
    case SUint => v.VUint? && 0 <= v.n < UINT_END
    case SCount => v.VCount? && 0 <= v.n <= MAX_SAFE_INTEGER
    case SChoice(choices) => v.VText? && v.s in choices
    case SNullable(inner) => v.VNull? || Fits(nfc, inner, v)
    case SArray(item) => v.VList? && forall i :: 0 <= i < |v.items| ==> Fits(nfc, item, v.items[i])
    case SRecord(slots) =>
      v.VRecord? && |v.fields| == |slots| &&
      forall i :: 0 <= i < |slots| ==> v.fields[i].key == slots[i].key && Fits(nfc, slots[i].schema, v.fields[i].value)
  }

  function SlotKeys(slots: seq<Slot>): seq<Text> {
    Map((s: Slot) => s.key, slots)
  }

  /** ASCII keys and choices, no key twice in one record, nothing doubly nullable. */
  predicate WellFormed(s: Schema)
    decreases s
  {
    match s
    case SChoice(choices) => forall i :: 0 <= i < |choices| ==> IsAscii(choices[i])
    case SNullable(inner) => !inner.SNullable? && WellFormed(inner)
    case SArray(item) => WellFormed(item)
    case SRecord(slots) =>
      Distinct(SlotKeys(slots)) && forall i :: 0 <= i < |slots| ==> IsAscii(slots[i].key) && WellFormed(slots[i].schema)
    case _ => true
  }

  // ---- what encoding does to a value

  /** The canonical value of a typed one. */
  function Converted(v: Val): Json
    decreases v
  {
    match v
    case VText(s) => JString(s)
    case VBool(b) => JBool(b)
    case VUint(n) => JBigInt(n)
    case VCount(n) => JString(DecimalText(n))
    case VNull => JNull
    case VList(items) => JArray(seq(|items|, i requires 0 <= i < |items| => Converted(items[i])))
    case VRecord(fields) => JObject(seq(|fields|, i requires 0 <= i < |fields| => Field(fields[i].key, Converted(fields[i].value))))
  }

  function Entries(fields: seq<VField>): seq<Entry<Doc>>
    decreases fields
  {
    seq(|fields|, i requires 0 <= i < |fields| => Entry(fields[i].key, DocFor(fields[i].value)))
  }

  function DocFor(v: Val): Doc
    decreases v
  {
    match v
    case VText(s) => DText(s)
    case VBool(b) => DBool(b)
    case VUint(n) => DText(DecimalText(n))
    case VCount(n) => DText(DecimalText(n))
    case VNull => DNull
    case VList(items) => DList(seq(|items|, i requires 0 <= i < |items| => DocFor(items[i])))
    case VRecord(fields) => DObject(Sort(ByKey(), Entries(fields)))
  }

  lemma AsciiStays(nfc: Nfc, s: Text)
    requires IsNfc(nfc) && IsAscii(s)
    ensures nfc(s) == s
  {
  }

  lemma NeverUndefinedJson(v: Val)
    ensures !ToJson(v).JUndefined?
  {
  }

  lemma {:induction false} ConvertsTo(nfc: Nfc, s: Schema, v: Val)
    requires IsNfc(nfc) && WellFormed(s) && Fits(nfc, s, v)
    ensures ToCanonical(nfc, ToJson(v)) == Some(Converted(v))
    decreases s
  {
    match s
    case SChoice(choices) => AsciiStays(nfc, v.s);
    case SNullable(inner) =>
      if !v.VNull? {
        ConvertsTo(nfc, inner, v);
      }
    case SArray(item) =>
      var js := ToJson(v).items;
      forall i | 0 <= i < |js| ensures ToCanonical(nfc, js[i]) == Some(Converted(v.items[i])) {
        ConvertsTo(nfc, item, v.items[i]);
      }
      ListConverts(nfc, v.items);
    case SRecord(slots) =>
      var js := ToJson(v).fields;
      forall i | 0 <= i < |js| ensures js[i].key == v.fields[i].key && ToCanonical(nfc, js[i].value) == Some(Converted(v.fields[i].value)) {
        ConvertsTo(nfc, slots[i].schema, v.fields[i].value);
      }
      RecordConverts(nfc, v.fields);
    case _ =>
  }

  lemma ListConverts(nfc: Nfc, items: seq<Val>)
    requires forall i :: 0 <= i < |items| ==> ToCanonical(nfc, ToJson(VList(items)).items[i]) == Some(Converted(items[i]))
    ensures ToCanonical(nfc, ToJson(VList(items))) == Some(Converted(VList(items)))
  {
    var js := ToJson(VList(items)).items;
    ConvertedItems(nfc, js);
    assert ToCanonicalAll(nfc, js).value == Converted(VList(items)).items;
  }

  lemma {:induction false} FieldsConvertTo(nfc: Nfc, fs: seq<Field>, gs: seq<Field>)
    requires |fs| == |gs|
    requires forall i :: 0 <= i < |fs| ==> fs[i].key == gs[i].key && !fs[i].value.JUndefined? && ToCanonical(nfc, fs[i].value) == Some(gs[i].value)
    ensures ToCanonicalFields(nfc, fs) == Some(gs)
  {
    if fs != [] {
      FieldsConvertTo(nfc, fs[..|fs| - 1], gs[..|gs| - 1]);
      assert gs == gs[..|gs| - 1] + [gs[|gs| - 1]];
    }
  }

  lemma RecordConverts(nfc: Nfc, fields: seq<VField>)
    requires forall i :: 0 <= i < |fields| ==> ToCanonical(nfc, ToJson(fields[i].value)) == Some(Converted(fields[i].value))
    ensures ToCanonical(nfc, ToJson(VRecord(fields))) == Some(Converted(VRecord(fields)))
  {
    var fs, gs := ToJson(VRecord(fields)).fields, Converted(VRecord(fields)).fields;
    forall i | 0 <= i < |fs| ensures !fs[i].value.JUndefined? {
      NeverUndefinedJson(fields[i].value);
    }
    FieldsConvertTo(nfc, fs, gs);
  }

  lemma {:induction false} NormalisesTo(nfc: Nfc, s: Schema, v: Val)
    requires IsNfc(nfc) && WellFormed(s) && Fits(nfc, s, v)
    ensures Normalise(nfc, Converted(v)) == Some(DocFor(v))
    decreases s
  {
    match s
    case SCount => DecimalIsAscii(v.n);
    case SChoice(choices) => AsciiStays(nfc, v.s);
    case SNullable(inner) =>
      if !v.VNull? {
        NormalisesTo(nfc, inner, v);
      }
    case SArray(item) =>
      var js := Converted(v).items;
      forall i | 0 <= i < |js| ensures Normalise(nfc, js[i]) == Some(DocFor(v.items[i])) {
        NormalisesTo(nfc, item, v.items[i]);
      }
      ListNormalises(nfc, v.items);
    case SRecord(slots) =>
      forall i | 0 <= i < |slots| ensures Normalise(nfc, Converted(v.fields[i].value)) == Some(DocFor(v.fields[i].value)) && nfc(v.fields[i].key) == v.fields[i].key {
        NormalisesTo(nfc, slots[i].schema, v.fields[i].value);
        AsciiStays(nfc, slots[i].key);
      }
      KeysOfEntries(slots, v.fields);
      RecordNormalises(nfc, v);
    case _ =>
  }

  lemma ListNormalises(nfc: Nfc, items: seq<Val>)
    requires forall i :: 0 <= i < |items| ==> Normalise(nfc, Converted(items[i])) == Some(DocFor(items[i]))
    ensures Normalise(nfc, Converted(VList(items))) == Some(DocFor(VList(items)))
  {
    var js := Converted(VList(items)).items;
    NormalItems(nfc, js);
    ItemsAt(nfc, js);
    assert NormaliseAll(nfc, js).value == DocFor(VList(items)).items;
  }

  lemma KeysOfEntries(slots: seq<Slot>, fields: seq<VField>)
    requires |fields| == |slots| && forall i :: 0 <= i < |slots| ==> fields[i].key == slots[i].key
    ensures KeysOf(Entries(fields)) == SlotKeys(slots)
  {
  }

  lemma RecordNormalises(nfc: Nfc, v: Val)
    requires v.VRecord? && Distinct(KeysOf(Entries(v.fields)))
    requires forall i :: 0 <= i < |v.fields| ==> Normalise(nfc, Converted(v.fields[i].value)) == Some(DocFor(v.fields[i].value)) && nfc(v.fields[i].key) == v.fields[i].key
    ensures Normalise(nfc, Converted(v)) == Some(DocFor(v))
  {
    var j := Converted(v);
    EntriesNormalise(nfc, v.fields, j.fields);
    ObjectFinishes(nfc, j, Entries(v.fields), DocFor(v));
  }

  lemma EntriesNormalise(nfc: Nfc, fields: seq<VField>, fs: seq<Field>)
    requires |fs| == |fields| && forall i :: 0 <= i < |fields| ==> fs[i] == Field(fields[i].key, Converted(fields[i].value))
    requires forall i :: 0 <= i < |fields| ==> Normalise(nfc, Converted(fields[i].value)) == Some(DocFor(fields[i].value)) && nfc(fields[i].key) == fields[i].key
    ensures NormaliseFields(nfc, fs) == Some(Entries(fields))
  {
    NormalFields(nfc, fs);
    FieldsAt(nfc, fs);
    var es := NormaliseFields(nfc, fs).value;
    forall i | 0 <= i < |fs| ensures es[i] == Entries(fields)[i] {
      assert EntryOf(nfc, fs[i]) == Some(es[i]);
    }
    assert es == Entries(fields);
  }

  // ---- reading it back

  lemma {:induction false} LookupFinds(es: seq<Entry<Doc>>, i: nat)
    requires Distinct(KeysOf(es)) && i < |es|
    ensures Lookup(JsonOfFields(es), es[i].key) == JsonOf(es[i].value)
  {
    var fs := JsonOfFields(es);
    assert fs[1..] == JsonOfFields(es[1..]);
    if i > 0 {
      assert KeysOf(es)[0] != KeysOf(es)[i];
      assert KeysOf(es[1..]) == KeysOf(es)[1..];
      LookupFinds(es[1..], i - 1);
    }
  }

  lemma LookupSorted(es: seq<Entry<Doc>>, i: nat)
    requires Distinct(KeysOf(es)) && i < |es|
    ensures Lookup(JsonOfFields(Sort(ByKey<Doc>(), es)), es[i].key) == JsonOf(es[i].value)
  {
    SortKeepsKeys(es);
    var k := SortedIndex(es, i);
    LookupFinds(Sort(ByKey<Doc>(), es), k);
  }

  lemma SortedIndex(es: seq<Entry<Doc>>, i: nat) returns (k: nat)
    requires i < |es|
    ensures k < |es| && Sort(ByKey<Doc>(), es)[k] == es[i]
  {
    var sorted := Sort(ByKey<Doc>(), es);
    SameElements(sorted, es);
    assert es[i] in sorted;
    k :| 0 <= k < |sorted| && sorted[k] == es[i];
  }

  lemma {:induction false} ParsesBack(nfc: Nfc, s: Schema, v: Val)
    requires WellFormed(s) && Fits(nfc, s, v)
    ensures Parse(s, JsonOf(DocFor(v))) == Some(v)
    decreases s
  {
    match s
    case SUint => UintReads(v.n);
    case SCount => UintReads(v.n);
    case SNullable(inner) =>
      if !v.VNull? {
        ParsesBack(nfc, inner, v);
        assert !DocFor(v).DNull?;
      }
    case SArray(item) =>
      var ds := DocFor(v).items;
      ItemsIndex(ds);
      forall i | 0 <= i < |ds| ensures Parse(item, JsonOfAll(ds)[i]) == Some(v.items[i]) {
        ParsesBack(nfc, item, v.items[i]);
      }
      ListParses(item, JsonOfAll(ds), v.items);
    case SRecord(slots) =>
      var es := Entries(v.fields);
      KeysOfEntries(slots, v.fields);
      var fs := JsonOfFields(Sort(ByKey<Doc>(), es));
      forall i | 0 <= i < |slots| ensures Parse(slots[i].schema, Lookup(fs, slots[i].key)) == Some(v.fields[i].value) {
        LookupSorted(es, i);
        ParsesBack(nfc, slots[i].schema, v.fields[i].value);
      }
      RecordParses(slots, fs, v.fields);
    case _ =>
  }

  lemma ListParses(item: Schema, js: seq<Json>, items: seq<Val>)
    requires |js| == |items| && forall i :: 0 <= i < |js| ==> Parse(item, js[i]) == Some(items[i])
    ensures Parse(SArray(item), JArray(js)) == Some(VList(items))
  {
    assert Parse(SArray(item), JArray(js)).value.items == items;
  }

  lemma RecordParses(slots: seq<Slot>, fs: seq<Field>, fields: seq<VField>)
    requires |fields| == |slots|
    requires forall i :: 0 <= i < |slots| ==> fields[i].key == slots[i].key && Parse(slots[i].schema, Lookup(fs, slots[i].key)) == Some(fields[i].value)
    ensures Parse(SRecord(slots), JObject(fs)) == Some(VRecord(fields))
  {
    assert Parse(SRecord(slots), JObject(fs)).value.fields == fields;
  }

  /** Decoding undoes encoding, for every schema and every value it describes. */
  lemma DecodeEncode(nfc: Nfc, s: Schema, v: Val)
    requires IsNfc(nfc) && WellFormed(s) && Fits(nfc, s, v)
    ensures Encode(nfc, v).Some? && Decode(nfc, s, Encode(nfc, v).value) == Some(v)
  {
    ConvertsTo(nfc, s, v);
    NormalisesTo(nfc, s, v);
    ParsesBack(nfc, s, v);
    ReparsedIsDocument(nfc, ToJson(v));
    CanonicalTextIsStable(nfc, ToJson(v));
  }

  /** Whatever document decodes is, field by field and at every depth, the encoding of what was read: nothing unknown gets in. */
  lemma DecodedIsWhole(nfc: Nfc, s: Schema, j: Json)
    requires IsNfc(nfc) && Decode(nfc, s, j).Some?
    ensures var v := Decode(nfc, s, j).value;
            && Encode(nfc, v).Some?
            && CanonicalStringify(nfc, Encode(nfc, v).value) == CanonicalStringify(nfc, j)
            && ToCanonical(nfc, j).Some? && ToCanonical(nfc, ToJson(v)).Some?
            && SameDocument(nfc, ToCanonical(nfc, j).value, ToCanonical(nfc, ToJson(v)).value)
  {
    var v := Decode(nfc, s, j).value;
    CanonicalTextIsStable(nfc, ToJson(v));
    StringifyMeaning(nfc, j, ToJson(v));
    StringifyMeaning(nfc, ToJson(v), j);
  }
}
