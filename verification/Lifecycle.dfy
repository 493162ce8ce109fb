/** The facts known about one message, and the state derived from them. */
module Lifecycle {
  import opened Collections
  import opened Sorting
  import opened Keys

  datatype Kind =
    | SourceApplicationEmitted | IntentObserved | SourceAccounted | IcmSent | SendRetry | EnvelopeResigned | Delivered
    | ExecutionSucceeded | ExecutionFailed | ExecutionRetried | ReceiptObserved | UnreceivableByVersionPolicy | PausedVersion
    | Orphaned | Unsupported

  datatype Input = Input(
    kind: Kind,
    message: MessageKey,
    fact: RawFactRef,
    envelopeId: Option<string>,
    carriesEconomicEffect: Option<bool>,
    unsupportedReason: Option<string>,
    observedAt: Option<int>,
    adapterId: string,
    adapterVersion: int)

  /** One slot of the insertion-ordered map from raw fact to input. */
  datatype Entry = Entry(id: string, input: Input)

  datatype Aggregate = Aggregate(key: MessageKey, facts: seq<Entry>)

  function IdOf(input: Input): string {
    RawFactRefOf(input.fact)
  }

  predicate Holds(facts: seq<Entry>, id: string) {
    exists e :: e in facts && e.id == id
  }

  function Put(facts: seq<Entry>, input: Input): seq<Entry> {
    if Holds(facts, IdOf(input)) then facts else facts + [Entry(IdOf(input), input)]
  }

  /** Fails when the input belongs to another message. */
  function Reduce(a: Aggregate, input: Input): Option<Aggregate> {
    if MessageKeyOf(input.message) != MessageKeyOf(a.key) then None
    else Some(a.(facts := Put(a.facts, input)))
  }

  function ReduceAll(key: MessageKey, inputs: seq<Input>): Option<Aggregate> {
    if inputs == [] then Some(Aggregate(key, []))
    else
      match ReduceAll(key, inputs[..|inputs| - 1])
      case None => None
      case Some(a) => Reduce(a, inputs[|inputs| - 1])
  }

  // ---- what folding keeps

  /** The first input seen for each raw fact, in order of appearance. */
  function FactsOf(inputs: seq<Input>): seq<Entry> {
    if inputs == [] then [] else Put(FactsOf(inputs[..|inputs| - 1]), inputs[|inputs| - 1])
  }

  predicate Belongs(key: MessageKey, inputs: seq<Input>) {
    forall i :: i in inputs ==> MessageKeyOf(i.message) == MessageKeyOf(key)
  }

  lemma {:induction false} ReduceAllMeaning(key: MessageKey, inputs: seq<Input>)
    ensures ReduceAll(key, inputs) == if Belongs(key, inputs) then Some(Aggregate(key, FactsOf(inputs))) else None
  {
    if inputs != [] {
      var front := inputs[..|inputs| - 1];
      ReduceAllMeaning(key, front);
      assert inputs == front + [inputs[|inputs| - 1]];
      assert inputs[|inputs| - 1] in inputs;
    }
  }

  /** Each entry sits under its own raw fact, and no raw fact appears twice. */
  predicate WellKeyed(facts: seq<Entry>) {
    && (forall e :: e in facts ==> e.id == IdOf(e.input))
    && (forall i, j :: 0 <= i < j < |facts| ==> facts[i].id != facts[j].id)
  }

  lemma PutKeeps(facts: seq<Entry>, input: Input)
    requires WellKeyed(facts)
    ensures WellKeyed(Put(facts, input)) && facts <= Put(facts, input) && Holds(Put(facts, input), IdOf(input))
    ensures forall e :: e in Put(facts, input) ==> e in facts || e.input == input
  {
    if !Holds(facts, IdOf(input)) {
      assert forall k :: 0 <= k < |facts| ==> facts[k] in facts;
      assert Entry(IdOf(input), input) in Put(facts, input);
    }
  }

  lemma {:induction false} FactsWellKeyed(inputs: seq<Input>)
    ensures WellKeyed(FactsOf(inputs))
    ensures forall e :: e in FactsOf(inputs) ==> e.input in inputs
    ensures forall i :: i in inputs ==> Holds(FactsOf(inputs), IdOf(i))
  {
    if inputs != [] {
      var front, last := inputs[..|inputs| - 1], inputs[|inputs| - 1];
      FactsWellKeyed(front);
      assert inputs == front + [last];
      PutKeeps(FactsOf(front), last);
      forall i | i in inputs ensures Holds(FactsOf(inputs), IdOf(i)) {
        if i in front {
          var e :| e in FactsOf(front) && e.id == IdOf(i);
          assert e in FactsOf(inputs);
        }
      }
    }
  }

  /** One raw fact always decodes to one input. */
  predicate OneDecoding(inputs: seq<Input>) {
    forall x, y :: x in inputs && y in inputs && IdOf(x) == IdOf(y) ==> x == y
  }

  lemma FactsAreInputs(inputs: seq<Input>, e: Entry)
    requires OneDecoding(inputs)
    ensures e in FactsOf(inputs) <==> e.input in inputs && e.id == IdOf(e.input)
  {
    FactsWellKeyed(inputs);
    if e.input in inputs && e.id == IdOf(e.input) {
      var f :| f in FactsOf(inputs) && f.id == e.id;
      assert f.input == e.input;
    }
  }

  lemma SameInputsSameFacts(a: seq<Input>, b: seq<Input>)
    requires OneDecoding(a) && SameMembers(a, b)
    ensures SameMembers(FactsOf(a), FactsOf(b))
  {
    forall e ensures e in FactsOf(a) <==> e in FactsOf(b) {
      FactsAreInputs(a, e);
      FactsAreInputs(b, e);
    }
  }

  // ---- states

  datatype MessageState =
    | SOURCE_APPLICATION_EMITTED | INTENT_OBSERVED | SOURCE_ACCOUNTED | ICM_SENT | DELIVERED | EXECUTED_SUCCESS | EXECUTED_FAILED
    | RETRY_PENDING | RETRIED_SUCCESS | RECEIPT_OBSERVED | UNRECEIVABLE_BY_VERSION_POLICY | PAUSED_VERSION | STALE | ORPHANED
    | UNCLASSIFIABLE

  datatype Verdict = OK | WARN | UNKNOWN | CRITICAL

  predicate IsTerminal(s: MessageState) {
    s == EXECUTED_SUCCESS || s == RETRIED_SUCCESS || s == ORPHANED
  }

  function StateVerdict(s: MessageState): Verdict {
    match s
    case EXECUTED_SUCCESS => OK
    case RETRIED_SUCCESS => OK
    case UNRECEIVABLE_BY_VERSION_POLICY => UNKNOWN
    case PAUSED_VERSION => UNKNOWN
    case STALE => UNKNOWN
    case ORPHANED => UNKNOWN
    case UNCLASSIFIABLE => UNKNOWN
    case _ => WARN
  }

  function Kinds(facts: seq<Entry>): set<Kind> {
    set e | e in facts :: e.input.kind
  }

  /** The order of the checks is the fail-closed precedence. */
  function LifecycleState(kinds: set<Kind>): MessageState {
    if Unsupported in kinds then UNCLASSIFIABLE
    else if Orphaned in kinds then ORPHANED
    else if PausedVersion in kinds then PAUSED_VERSION
    else if UnreceivableByVersionPolicy in kinds then UNRECEIVABLE_BY_VERSION_POLICY
    else if ExecutionRetried in kinds then RETRIED_SUCCESS
    else if ExecutionSucceeded in kinds then EXECUTED_SUCCESS
    else if ExecutionFailed in kinds then (if SendRetry in kinds || EnvelopeResigned in kinds then RETRY_PENDING else EXECUTED_FAILED)
    else if Delivered in kinds then DELIVERED
    else if IcmSent in kinds || SendRetry in kinds then ICM_SENT
    else if SourceAccounted in kinds then SOURCE_ACCOUNTED
    else if IntentObserved in kinds then INTENT_OBSERVED
    else if SourceApplicationEmitted in kinds then SOURCE_APPLICATION_EMITTED
    else if ReceiptObserved in kinds then RECEIPT_OBSERVED
    else UNCLASSIFIABLE
  }

  // ---- canonical views

  function EntryOrder(): Order<Entry> {
    (a: Entry, b: Entry) => CodeUnitOrder()(a.id, b.id)
  }

  function Canonical(p: Entry -> bool, facts: seq<Entry>): seq<Entry> {
    Sort(EntryOrder(), Filter(p, facts))
  }

  function OfKind(kind: Kind): Entry -> bool {
    (e: Entry) => e.input.kind == kind
  }

  function FactsOfKind(facts: seq<Entry>, kind: Kind): seq<Entry> {
    Canonical(OfKind(kind), facts)
  }

  predicate CarriesEffect(i: Input) {
    i.carriesEconomicEffect != Some(false)
  }

  predicate IsSourceEffect(e: Entry) {
    e.input.kind == SourceAccounted && CarriesEffect(e.input)
  }

  /** A successful execution that moved value. */
  predicate IsDestinationEffect(e: Entry) {
    (e.input.kind == ExecutionSucceeded || e.input.kind == ExecutionRetried) && CarriesEffect(e.input)
  }

  function SourceEffect(): Entry -> bool {
    (e: Entry) => IsSourceEffect(e)
  }

  function DestinationEffect(): Entry -> bool {
    (e: Entry) => IsDestinationEffect(e)
  }

  function Any(): Entry -> bool {
    (e: Entry) => true
  }

  function EnvelopeId(): Input -> Option<string> {
    (i: Input) => i.envelopeId
  }

  function UnsupportedReason(): Input -> Option<string> {
    (i: Input) => i.unsupportedReason
  }

  function Refs(facts: seq<Entry>): seq<RawFactRef> {
    Map((e: Entry) => e.input.fact, facts)
  }

  function Texts(field: Input -> Option<string>, facts: seq<Entry>): seq<string> {
    if facts == [] then []
    else
      var t := field(facts[|facts| - 1].input);
      Texts(field, facts[..|facts| - 1]) + (if t.Some? then [t.value] else [])
  }

  /** The distinct present values of a field, sorted. */
  function SortedTexts(field: Input -> Option<string>, facts: seq<Entry>): seq<string> {
    Sort(CodeUnitOrder(), Dedup(Texts(field, facts)))
  }

  function Later(latest: Option<int>, at: Option<int>): Option<int> {
    if at.Some? && (latest.None? || at.value > latest.value) then at else latest
  }

  function Latest(facts: seq<Entry>): Option<int> {
    if facts == [] then None else Later(Latest(facts[..|facts| - 1]), facts[|facts| - 1].input.observedAt)
  }

  method LatestObservedAt(a: Aggregate) returns (latest: Option<int>)
    ensures latest == Latest(a.facts)
    ensures latest.Some? <==> exists e :: e in a.facts && e.input.observedAt.Some?
    ensures latest.Some? ==> forall e :: e in a.facts && e.input.observedAt.Some? ==> e.input.observedAt.value <= latest.value
  {
    latest := None;
    for k := 0 to |a.facts|
      invariant latest == Latest(a.facts[..k])
    {
      PrefixStep(a.facts, k);
      var at := a.facts[k].input.observedAt;
      if at.Some? && (latest.None? || at.value > latest.value) {
        latest := at;
      }
    }
    assert a.facts[..|a.facts|] == a.facts;
    LatestMeaning(a.facts);
  }

  ghost predicate IsLatest(facts: seq<Entry>, m: Option<int>) {
    && (m.None? <==> forall e :: e in facts ==> e.input.observedAt.None?)
    && (m.Some? ==> exists e :: e in facts && e.input.observedAt == m)
    && (m.Some? ==> forall e :: e in facts && e.input.observedAt.Some? ==> e.input.observedAt.value <= m.value)
  }

  lemma {:induction false} LatestMeaning(facts: seq<Entry>)
    ensures IsLatest(facts, Latest(facts))
  {
    if facts != [] {
      var n := |facts| - 1;
      LatestMeaning(facts[..n]);
      assert facts == facts[..n] + [facts[n]];
      var before, m := Latest(facts[..n]), Latest(facts);
      assert facts[n] in facts;
      if m == before && m.Some? {
        var e :| e in facts[..n] && e.input.observedAt == m;
        assert e in facts;
      }
    }
  }

  // ---- the derived message

  datatype Context = Context(evaluatedAt: int, staleAfterMs: int)

  datatype Effect = Effect(count: int, sourceFact: Option<RawFactRef>, destinationFact: Option<RawFactRef>)

  datatype Derived = Derived(
    state: MessageState,
    verdict: Verdict,
    effect: Effect,
    duplicateEffectFacts: seq<RawFactRef>,
    sendAttempts: int,
    executionAttempts: int,
    envelopeIds: seq<string>,
    receiptObserved: bool,
    unsupportedReasons: seq<string>,
    supportingFacts: seq<RawFactRef>)

  function First<T>(s: seq<T>): Option<T> {
    if s == [] then None else Some(s[0])
  }

  function Duplicates(distinct: seq<RawFactRef>): seq<RawFactRef> {
    if |distinct| > 1 then distinct else []
  }

  predicate IsStale(base: MessageState, observedAt: Option<int>, context: Context) {
    !IsTerminal(base) && StateVerdict(base) == WARN && observedAt.Some? && context.evaluatedAt - observedAt.value > context.staleAfterMs
  }

  function StateAt(kinds: set<Kind>, observedAt: Option<int>, context: Context): MessageState {
    if IsStale(LifecycleState(kinds), observedAt, context) then STALE else LifecycleState(kinds)
  }

  function EffectOf(sources: seq<RawFactRef>, destinations: seq<RawFactRef>): Effect {
    Effect(if destinations == [] then 0 else 1, First(sources), First(destinations))
  }

  /** Everything the derivation reads off the facts. */
  datatype View = View(
    kinds: set<Kind>,
    latest: Option<int>,
    sources: seq<Entry>,
    destinations: seq<Entry>,
    sends: seq<seq<Entry>>,
    executions: seq<seq<Entry>>,
    envelopeIds: seq<string>,
    reasons: seq<string>,
    all: seq<Entry>)

  function ViewOf(facts: seq<Entry>): View {
    View(
      Kinds(facts),
      Latest(facts),
      Canonical(SourceEffect(), facts),
      Canonical(DestinationEffect(), facts),
      [FactsOfKind(facts, IcmSent), FactsOfKind(facts, SendRetry)],
      [FactsOfKind(facts, ExecutionSucceeded), FactsOfKind(facts, ExecutionFailed), FactsOfKind(facts, ExecutionRetried)],
      SortedTexts(EnvelopeId(), facts),
      SortedTexts(UnsupportedReason(), facts),
      Canonical(Any(), facts))
  }

  function VerdictOf(state: MessageState, duplicates: seq<RawFactRef>): Verdict {
    if duplicates != [] then CRITICAL else StateVerdict(state)
  }

  function Conclude(v: View, context: Context): Derived
    requires |v.sends| == 2 && |v.executions| == 3
  {
    var destinations := Refs(v.destinations);
    var state := StateAt(v.kinds, v.latest, context);
    Derived(
      state,
      VerdictOf(state, Duplicates(destinations)),
      EffectOf(Refs(v.sources), destinations),
      Duplicates(destinations),
      |v.sends[0]| + |v.sends[1]|,
      |v.executions[0]| + |v.executions[1]| + |v.executions[2]|,
      v.envelopeIds,
      ReceiptObserved in v.kinds,
      v.reasons,
      Refs(v.all))
  }

  function DeriveState(a: Aggregate, context: Context): Derived {
    Conclude(ViewOf(a.facts), context)
  }

  // ---- the order of the facts does not matter

  lemma CanonicalIgnoresOrder(p: Entry -> bool, f: seq<Entry>, g: seq<Entry>)
    requires WellKeyed(f) && WellKeyed(g) && SameMembers(f, g)
    ensures Canonical(p, f) == Canonical(p, g)
  {
    FilterDistinct(p, f);
    FilterDistinct(p, g);
    FilterMembers(p, f);
    FilterMembers(p, g);
    DistinctSame(Filter(p, f), Filter(p, g));
    EntryOrderIsTotal();
    forall x, y | x in Filter(p, f) && y in Filter(p, f) && EntryOrder()(x, y) && EntryOrder()(y, x) ensures x == y {
      CodeUnitsOrdered();
      assert x.id == y.id;
      SameIdSameEntry(f, x, y);
    }
    SortIgnoresOrder(EntryOrder(), Filter(p, f), Filter(p, g));
  }

  lemma EntryOrderIsTotal()
    ensures TotalPreorder(EntryOrder())
  {
    CodeUnitsOrdered();
    forall a, b ensures EntryOrder()(a, b) || EntryOrder()(b, a) {
      assert CodeUnitOrder()(a.id, b.id) || CodeUnitOrder()(b.id, a.id);
    }
    forall a, b, c | EntryOrder()(a, b) && EntryOrder()(b, c) ensures EntryOrder()(a, c) {
      assert CodeUnitOrder()(a.id, b.id) && CodeUnitOrder()(b.id, c.id);
    }
  }

  lemma SameIdSameEntry(facts: seq<Entry>, x: Entry, y: Entry)
    requires WellKeyed(facts) && x in facts && y in facts && x.id == y.id
    ensures x == y
  {
    assert forall i, j :: 0 <= i < |facts| && 0 <= j < |facts| && facts[i].id == facts[j].id ==> i == j;
  }

  lemma TextsPush(field: Input -> Option<string>, front: seq<Entry>, last: Entry, x: string)
    ensures (exists e :: e in front + [last] && field(e.input) == Some(x)) <==>
              (exists e :: e in front && field(e.input) == Some(x)) || field(last.input) == Some(x)
  {
    assert last in front + [last] && forall e :: e in front ==> e in front + [last];
  }

  lemma {:induction false} TextsMembers(field: Input -> Option<string>, facts: seq<Entry>, x: string)
    ensures x in Texts(field, facts) <==> exists e :: e in facts && field(e.input) == Some(x)
  {
    if facts != [] {
      var n := |facts| - 1;
      TextsMembers(field, facts[..n], x);
      assert facts == facts[..n] + [facts[n]];
      TextsPush(field, facts[..n], facts[n], x);
    }
  }

  lemma TextsIgnoreOrder(field: Input -> Option<string>, f: seq<Entry>, g: seq<Entry>)
    requires SameMembers(f, g)
    ensures SortedTexts(field, f) == SortedTexts(field, g)
  {
    forall x ensures x in Dedup(Texts(field, f)) <==> x in Dedup(Texts(field, g)) {
      TextsMembers(field, f, x);
      TextsMembers(field, g, x);
    }
    DistinctSame(Dedup(Texts(field, f)), Dedup(Texts(field, g)));
    CodeUnitsOrdered();
    SortIgnoresOrder(CodeUnitOrder(), Dedup(Texts(field, f)), Dedup(Texts(field, g)));
  }

  lemma LatestIgnoresOrder(f: seq<Entry>, g: seq<Entry>)
    requires SameMembers(f, g)
    ensures Latest(f) == Latest(g)
  {
    LatestMeaning(f);
    LatestMeaning(g);
  }

  lemma ViewIgnoresOrder(f: seq<Entry>, g: seq<Entry>)
    requires WellKeyed(f) && WellKeyed(g) && SameMembers(f, g)
    ensures ViewOf(f) == ViewOf(g)
  {
    CanonicalIgnoresOrder(SourceEffect(), f, g);
    CanonicalIgnoresOrder(DestinationEffect(), f, g);
    CanonicalIgnoresOrder(Any(), f, g);
    CanonicalIgnoresOrder(OfKind(IcmSent), f, g);
    CanonicalIgnoresOrder(OfKind(SendRetry), f, g);
    CanonicalIgnoresOrder(OfKind(ExecutionSucceeded), f, g);
    CanonicalIgnoresOrder(OfKind(ExecutionFailed), f, g);
    CanonicalIgnoresOrder(OfKind(ExecutionRetried), f, g);
    TextsIgnoreOrder(EnvelopeId(), f, g);
    TextsIgnoreOrder(UnsupportedReason(), f, g);
    LatestIgnoresOrder(f, g);
    KindsIgnoreOrder(f, g);
  }

  lemma KindsIgnoreOrder(f: seq<Entry>, g: seq<Entry>)
    requires SameMembers(f, g)
    ensures Kinds(f) == Kinds(g)
  {
  }

  /** The derived message is a function of the set of inputs: order and repetition are invisible, as is a refused fold. */
  lemma LifecycleIsSetFunction(key: MessageKey, a: seq<Input>, b: seq<Input>, context: Context)
    requires OneDecoding(a) && SameMembers(a, b)
    ensures ReduceAll(key, a).Some? <==> ReduceAll(key, b).Some?
    ensures ReduceAll(key, a).Some? ==> DeriveState(ReduceAll(key, a).value, context) == DeriveState(ReduceAll(key, b).value, context)
  {
    ReduceAllMeaning(key, a);
    ReduceAllMeaning(key, b);
    SameInputsSameFacts(a, b);
    FactsWellKeyed(a);
    FactsWellKeyed(b);
    ViewIgnoresOrder(FactsOf(a), FactsOf(b));
  }

  /** A repeated raw fact changes nothing, whatever it was decoded to. */
  lemma RepeatIsIdempotent(key: MessageKey, inputs: seq<Input>, again: Input)
    requires Belongs(key, inputs + [again]) && exists i :: i in inputs && IdOf(i) == IdOf(again)
    ensures ReduceAll(key, inputs + [again]) == ReduceAll(key, inputs)
  {
    ReduceAllMeaning(key, inputs);
    ReduceAllMeaning(key, inputs + [again]);
    FactsWellKeyed(inputs);
    assert (inputs + [again])[..|inputs|] == inputs;
    assert forall i :: i in inputs ==> i in inputs + [again];
  }

  /** The facts kept are the same for every order exactly when one raw fact always decodes to one input. */
  lemma OrderInvisibleIffOneDecoding(a: seq<Input>)
    ensures OneDecoding(a) <==> forall b :: multiset(b) == multiset(a) ==> SameMembers(FactsOf(a), FactsOf(b))
  {
    if OneDecoding(a) {
      forall b | multiset(b) == multiset(a) ensures SameMembers(FactsOf(a), FactsOf(b)) {
        SameElements(a, b);
        SameInputsSameFacts(a, b);
      }
    } else {
      var x, y :| x in a && y in a && IdOf(x) == IdOf(y) && x != y;
      var b := MovedToFront(a, x);
      var c := MovedToFront(a, y);
      StartsWith(b);
      StartsWith(c);
      var e, f := Entry(IdOf(x), x), Entry(IdOf(x), y);
      assert e in FactsOf(b) && f in FactsOf(c);
      FactsWellKeyed(a);
      if SameMembers(FactsOf(a), FactsOf(b)) && SameMembers(FactsOf(a), FactsOf(c)) {
        SameIdSameEntry(FactsOf(a), e, f);
        assert false;
      }
    }
  }

  lemma MovedToFront(a: seq<Input>, x: Input) returns (b: seq<Input>)
    requires x in a
    ensures multiset(b) == multiset(a) && b != [] && b[0] == x
  {
    var i :| 0 <= i < |a| && a[i] == x;
    RemoveAt(a, i);
    b := [x] + (a[..i] + a[i + 1..]);
  }

  lemma {:induction false} StartsWith(inputs: seq<Input>)
    requires inputs != []
    ensures Entry(IdOf(inputs[0]), inputs[0]) in FactsOf(inputs)
  {
    if |inputs| > 1 {
      StartsWith(inputs[..|inputs| - 1]);
    } else {
      assert inputs[..0] == [];
    }
  }

  // ---- what the verdict means

  /** Two different raw facts each credited the message. */
  ghost predicate DoubleEffect(facts: seq<Entry>) {
    exists x, y :: x in facts && y in facts && x.id != y.id && IsDestinationEffect(x) && IsDestinationEffect(y)
  }

  predicate HasKind(facts: seq<Entry>, k: Kind) {
    exists e :: e in facts && e.input.kind == k
  }

  lemma KindsMeaning(facts: seq<Entry>, k: Kind)
    ensures k in Kinds(facts) <==> HasKind(facts, k)
  {
  }

  /** The canonical list holds each matching entry once, the least id first. */
  lemma CanonicalMeaning(p: Entry -> bool, facts: seq<Entry>)
    requires WellKeyed(facts)
    ensures var d := Canonical(p, facts); Distinct(d) && SortedBy(EntryOrder(), d) && forall e :: e in d <==> e in facts && p(e)
  {
    var f := Filter(p, facts);
    FilterMembers(p, facts);
    FilterDistinct(p, facts);
    EntryOrderIsTotal();
    SortSorts(EntryOrder(), f);
    SameElements(Sort(EntryOrder(), f), f);
    DistinctPermuted(f, Sort(EntryOrder(), f));
  }

  lemma DoubleMeaning(facts: seq<Entry>)
    requires WellKeyed(facts)
    ensures |Canonical(DestinationEffect(), facts)| > 1 <==> DoubleEffect(facts)
  {
    var d := Canonical(DestinationEffect(), facts);
    CanonicalMeaning(DestinationEffect(), facts);
    assert |d| > 1 ==> d[0] in d && d[1] in d && d[0] != d[1];
    if |d| > 1 && d[0].id == d[1].id {
      SameIdSameEntry(facts, d[0], d[1]);
    }
    if DoubleEffect(facts) {
      var x, y :| x in facts && y in facts && x.id != y.id && IsDestinationEffect(x) && IsDestinationEffect(y);
      assert x in d && y in d;
    }
  }

  ghost predicate Credited(facts: seq<Entry>) {
    exists x :: x in facts && IsDestinationEffect(x)
  }

  /** The credited fact is the effect-carrying execution with the least raw fact id. */
  lemma CreditMeaning(facts: seq<Entry>)
    requires WellKeyed(facts)
    ensures var d := Canonical(DestinationEffect(), facts);
            && (d == [] <==> !Credited(facts))
            && (d != [] ==> d[0] in facts && IsDestinationEffect(d[0]))
            && (d != [] ==> forall x :: x in facts && IsDestinationEffect(x) ==> CodeUnitOrder()(d[0].id, x.id))
  {
    var d := Canonical(DestinationEffect(), facts);
    CanonicalMeaning(DestinationEffect(), facts);
    CodeUnitsOrdered();
    assert forall x :: x in facts && DestinationEffect()(x) ==> x in d;
    if d != [] {
      assert d[0] in d;
      forall x | x in facts && IsDestinationEffect(x) ensures CodeUnitOrder()(d[0].id, x.id) {
        assert x in d;
        var i :| 0 <= i < |d| && d[i] == x;
        assert i > 0 ==> EntryOrder()(d[0], d[i]);
      }
    }
  }

  predicate Blocked(facts: seq<Entry>) {
    HasKind(facts, Unsupported) || HasKind(facts, Orphaned) || HasKind(facts, PausedVersion) || HasKind(facts, UnreceivableByVersionPolicy)
  }

  lemma StateMeaning(kinds: set<Kind>, latest: Option<int>, context: Context)
    ensures var v := StateVerdict(StateAt(kinds, latest, context));
            && v != CRITICAL
            && (v == OK <==>
                  && Unsupported !in kinds && Orphaned !in kinds && PausedVersion !in kinds && UnreceivableByVersionPolicy !in kinds
                  && (ExecutionSucceeded in kinds || ExecutionRetried in kinds))
  {
  }

  /** CRITICAL is exactly a double credit; OK is exactly a recorded execution with no credit doubled and nothing that blocks judgement. */
  lemma VerdictMeaning(a: Aggregate, context: Context)
    requires WellKeyed(a.facts)
    ensures var d := DeriveState(a, context);
            && (d.verdict == CRITICAL <==> DoubleEffect(a.facts))
            && (d.verdict == OK <==>
                  !DoubleEffect(a.facts) && !Blocked(a.facts) && (HasKind(a.facts, ExecutionSucceeded) || HasKind(a.facts, ExecutionRetried)))
            && 0 <= d.effect.count <= 1
            && (d.effect.count == 1 <==> Credited(a.facts))
  {
    DoubleMeaning(a.facts);
    CreditMeaning(a.facts);
    StateMeaning(Kinds(a.facts), Latest(a.facts), context);
    KindsMeaning(a.facts, Unsupported);
    KindsMeaning(a.facts, Orphaned);
    KindsMeaning(a.facts, PausedVersion);
    KindsMeaning(a.facts, UnreceivableByVersionPolicy);
    KindsMeaning(a.facts, ExecutionSucceeded);
    KindsMeaning(a.facts, ExecutionRetried);
  }

  lemma {:induction false} FactsGrow(inputs: seq<Input>, more: seq<Input>)
    ensures FactsOf(inputs) <= FactsOf(inputs + more)
  {
    if more == [] {
      assert inputs + more == inputs;
    } else {
      assert (inputs + more)[..|inputs + more| - 1] == inputs + more[..|more| - 1];
      FactsGrow(inputs, more[..|more| - 1]);
    }
  }

  lemma MoreFactsSafe(before: Aggregate, after: Aggregate, early: Context, late: Context)
    requires before.facts <= after.facts && WellKeyed(before.facts) && WellKeyed(after.facts)
    ensures DeriveState(before, early).verdict == CRITICAL ==> DeriveState(after, late).verdict == CRITICAL
    ensures Blocked(before.facts) ==> DeriveState(after, late).verdict != OK
    ensures DeriveState(before, early).effect.count <= DeriveState(after, late).effect.count <= 1
  {
    assert forall e :: e in before.facts ==> e in after.facts;
    VerdictMeaning(before, early);
    VerdictMeaning(after, late);
    BlockedGrows(before.facts, after.facts);
  }

  /** A double credit stays CRITICAL, and a blocked message stays away from OK, whatever facts arrive later. */
  lemma SafetyUnderExtension(key: MessageKey, inputs: seq<Input>, more: seq<Input>, early: Context, late: Context)
    requires Belongs(key, inputs + more)
    ensures Belongs(key, inputs)
    ensures var before, after := Aggregate(key, FactsOf(inputs)), Aggregate(key, FactsOf(inputs + more));
            && ReduceAll(key, inputs) == Some(before) && ReduceAll(key, inputs + more) == Some(after)
            && (DeriveState(before, early).verdict == CRITICAL ==> DeriveState(after, late).verdict == CRITICAL)
            && (Blocked(before.facts) ==> DeriveState(after, late).verdict != OK)
            && DeriveState(before, early).effect.count <= DeriveState(after, late).effect.count <= 1
  {
    assert forall i :: i in inputs ==> i in inputs + more;
    ReduceAllMeaning(key, inputs);
    ReduceAllMeaning(key, inputs + more);
    FactsWellKeyed(inputs);
    FactsWellKeyed(inputs + more);
    FactsGrow(inputs, more);
    MoreFactsSafe(Aggregate(key, FactsOf(inputs)), Aggregate(key, FactsOf(inputs + more)), early, late);
  }

  lemma BlockedGrows(f: seq<Entry>, g: seq<Entry>)
    requires forall e :: e in f ==> e in g
    ensures Blocked(f) ==> Blocked(g)
  {
    forall k | HasKind(f, k) ensures HasKind(g, k) {
      var e :| e in f && e.input.kind == k;
      assert e in g;
    }
  }

  // ---- grouping loose inputs

  function OfMessage(id: string): Input -> bool {
    (i: Input) => MessageKeyOf(i.message) == id
  }

  function Own(inputs: seq<Input>, id: string): seq<Input> {
    Filter(OfMessage(id), inputs)
  }

  /** The group of a message, if it has one, is the fold of exactly its own inputs. */
  ghost predicate GroupRight(inputs: seq<Input>, out: map<string, Aggregate>, id: string) {
    && (id in out <==> Own(inputs, id) != [])
    && (id in out ==>
          && MessageKeyOf(out[id].key) == id
          && out[id].key == Own(inputs, id)[0].message
          && ReduceAll(out[id].key, Own(inputs, id)) == Some(out[id]))
  }

  ghost predicate GroupsRight(inputs: seq<Input>, out: map<string, Aggregate>) {
    forall id :: GroupRight(inputs, out, id)
  }

  lemma OwnStep(inputs: seq<Input>, next: Input, id: string)
    ensures Own(inputs + [next], id) == if MessageKeyOf(next.message) == id then Own(inputs, id) + [next] else Own(inputs, id)
  {
    assert (inputs + [next])[..|inputs|] == inputs;
  }

  lemma ReduceStep(key: MessageKey, own: seq<Input>, next: Input)
    requires ReduceAll(key, own).Some?
    ensures ReduceAll(key, own + [next]) == Reduce(ReduceAll(key, own).value, next)
  {
    assert (own + [next])[..|own|] == own;
  }

  function GroupFor(out: map<string, Aggregate>, next: Input): Aggregate {
    var id := MessageKeyOf(next.message);
    if id in out then out[id] else Aggregate(next.message, [])
  }

  lemma OwnGroupStep(inputs: seq<Input>, next: Input, out: map<string, Aggregate>)
    requires GroupRight(inputs, out, MessageKeyOf(next.message))
    ensures var id := MessageKeyOf(next.message);
            && Reduce(GroupFor(out, next), next).Some?
            && GroupRight(inputs + [next], out[id := Reduce(GroupFor(out, next), next).value], id)
  {
    var id, was := MessageKeyOf(next.message), GroupFor(out, next);
    OwnStep(inputs, next, id);
    assert ReduceAll(was.key, Own(inputs, id)) == Some(was);
    ReduceStep(was.key, Own(inputs, id), next);
  }

  lemma GroupStep(inputs: seq<Input>, next: Input, out: map<string, Aggregate>)
    requires GroupsRight(inputs, out)
    ensures Reduce(GroupFor(out, next), next).Some?
    ensures GroupsRight(inputs + [next], out[MessageKeyOf(next.message) := Reduce(GroupFor(out, next), next).value])
  {
    var id := MessageKeyOf(next.message);
    assert GroupRight(inputs, out, id);
    OwnGroupStep(inputs, next, out);
    var a := Reduce(GroupFor(out, next), next).value;
    var all, after := inputs + [next], out[id := a];
    forall other ensures GroupRight(all, after, other) {
      if other != id {
        assert GroupRight(inputs, out, other);
        OtherGroupStep(inputs, next, out, a, other);
      }
    }
  }

  lemma OtherGroupStep(inputs: seq<Input>, next: Input, out: map<string, Aggregate>, a: Aggregate, other: string)
    requires GroupRight(inputs, out, other) && other != MessageKeyOf(next.message)
    ensures GroupRight(inputs + [next], out[MessageKeyOf(next.message) := a], other)
  {
    OwnStep(inputs, next, other);
  }

  /** Every group is the fold of exactly its own inputs, in their order. */
  method GroupByMessage(inputs: seq<Input>) returns (out: map<string, Aggregate>)
    ensures GroupsRight(inputs, out)
  {
    out := map[];
    for k := 0 to |inputs|
      invariant GroupsRight(inputs[..k], out)
    {
      PrefixStep(inputs, k);
      var id := MessageKeyOf(inputs[k].message);
      GroupStep(inputs[..k], inputs[k], out);
      out := out[id := Reduce(GroupFor(out, inputs[k]), inputs[k]).value];
    }
    assert inputs[..|inputs|] == inputs;
  }

  /** With separator-free keys, a message's group is the fold of exactly the inputs that name it. */
  lemma GroupIsOwnMessage(inputs: seq<Input>, out: map<string, Aggregate>, k: MessageKey)
    requires GroupsRight(inputs, out) && PlainKey(k) && forall i :: i in inputs ==> PlainKey(i.message)
    ensures MessageKeyOf(k) in out <==> exists i :: i in inputs && i.message == k
    ensures MessageKeyOf(k) in out ==> Some(out[MessageKeyOf(k)]) == ReduceAll(k, Filter((i: Input) => i.message == k, inputs))
  {
    var id := MessageKeyOf(k);
    assert GroupRight(inputs, out, id);
    FilterMembers(OfMessage(id), inputs);
    forall i | i in inputs ensures OfMessage(id)(i) <==> i.message == k {
      MessageKeyInjective(i.message, k);
    }
    FilterAgree(OfMessage(id), (i: Input) => i.message == k, inputs);
    if id in out {
      assert Own(inputs, id)[0] in Own(inputs, id);
    }
    if i :| i in inputs && i.message == k {
      assert i in Own(inputs, id);
    }
  }
}
