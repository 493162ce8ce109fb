/** The proof input the gates read, as the value the codec writes: every field of the one is a field of the other. */
module ProofRecords {
  import opened Collections
  import opened CanonicalText
  import opened CanonicalJson
  import opened CanonicalMeaning
  import opened CanonicalParse
  import opened ProofCodec
  import opened ProofSchema
  import RouteAssessment
  import ProofInputs

  /** How strings are written as code units, and what the supported family is called. */
  datatype Letters = Letters(spell: Spelling, units: string -> Text, canonicalFamily: string)

  ghost predicate GoodLetters(k: Letters) {
    GoodSpelling(k.spell) && forall s, t :: k.units(s) == k.units(t) ==> s == t
  }

  datatype Part = Part(name: Name, value: Val)

  function RecordOf(k: Letters, parts: seq<Part>): Val {
    VRecord(Map((f: Part) => VField(k.spell(f.name), f.value), parts))
  }

  function TextOf(k: Letters, s: string): Val {
    VText(k.units(s))
  }

  function OptionOf<T>(f: T -> Val, x: Option<T>): Val {
    if x.None? then VNull else f(x.value)
  }

  function ListOf<T>(f: T -> Val, xs: seq<T>): Val {
    VList(Map(f, xs))
  }

  // ---- the conversion

  function Texts(k: Letters): string -> Val {
    s => TextOf(k, s)
  }

  function Uints(): int -> Val {
    n => VUint(n)
  }

  function Counts(): int -> Val {
    n => VCount(n)
  }

  function PinParts(k: Letters, p: ProofInputs.PinnedBlock): seq<Part> {
    [Part(blockchainId, TextOf(k, p.blockchainId)), Part(blockNumber, VUint(p.blockNumber)), Part(blockHash, TextOf(k, p.blockHash))]
  }

  function Pins(k: Letters): ProofInputs.PinnedBlock -> Val {
    p => RecordOf(k, PinParts(k, p))
  }

  function ProvenanceParts(k: Letters, p: ProofInputs.Provenance): seq<Part> {
    [Part(manifestHash, OptionOf(Texts(k), p.manifestHash)), Part(policyHash, OptionOf(Texts(k), p.policyHash)),
     Part(sourceLockCommitSha, OptionOf(Texts(k), p.sourceLockCommitSha)), Part(adapterId, OptionOf(Texts(k), p.adapterId)),
     Part(adapterVersion, OptionOf(Counts(), p.adapterVersion)), Part(ruleVersion, TextOf(k, p.ruleVersion))]
  }

  function FreshnessParts(k: Letters, f: ProofInputs.Freshness): seq<Part> {
    [Part(isFresh, VBool(f.isFresh)), Part(independentWitnessGroups, VCount(f.independentWitnessGroups)),
     Part(requiredWitnessGroups, VCount(f.requiredWitnessGroups))]
  }

  function ScaleParts(k: Letters, s: ProofInputs.TokenScale): seq<Part> {
    [Part(tokenMultiplier, VUint(s.tokenMultiplier)), Part(multiplyOnRemote, VBool(s.multiplyOnRemote)),
     Part(homeDecimals, VCount(s.homeDecimals)), Part(remoteDecimals, VCount(s.remoteDecimals)), Part(established, VBool(s.established))]
  }

  function RemoteParts(k: Letters, r: ProofInputs.RemoteObservation): seq<Part> {
    [Part(remoteBlockchainId, TextOf(k, r.remoteBlockchainId)), Part(remoteAddress, TextOf(k, r.remoteAddress)),
     Part(transferredBalance, OptionOf(Uints(), r.transferredBalance)), Part(remoteTotalSupply, OptionOf(Uints(), r.remoteTotalSupply)),
     Part(scale, RecordOf(k, ScaleParts(k, r.scale))), Part(homePin, OptionOf(Pins(k), r.homePin)),
     Part(remotePin, OptionOf(Pins(k), r.remotePin)), Part(fingerprintRecognised, VBool(r.fingerprintRecognised)),
     Part(tokenBehaviourCanonical, VBool(r.tokenBehaviourCanonical)), Part(routeSingleHop, VBool(r.routeSingleHop)),
     Part(initialReserveImbalance, VUint(r.initialReserveImbalance))]
  }

  function Remotes(k: Letters): ProofInputs.RemoteObservation -> Val {
    r => RecordOf(k, RemoteParts(k, r))
  }

  function DirectionName(d: RouteAssessment.Direction): Name {
    match d
    case HomeToRemote => homeToRemote
    case RemoteToHome => remoteToHome
  }

  function PendingParts(k: Letters, e: RouteAssessment.PendingEnvelope): seq<Part> {
    [Part(messageKey, TextOf(k, e.messageKey)), Part(direction, VText(k.spell(DirectionName(e.direction)))), Part(amount, VUint(e.amount)),
     Part(ageSeconds, VCount(e.ageSeconds)), Part(remoteBlockchainId, TextOf(k, e.remoteBlockchainId)),
     Part(remoteAddress, TextOf(k, e.remoteAddress))]
  }

  function Pendings(k: Letters): RouteAssessment.PendingEnvelope -> Val {
    e => RecordOf(k, PendingParts(k, e))
  }

  function EffectParts(k: Letters, e: RouteAssessment.CreditedEffect): seq<Part> {
    [Part(messageKey, TextOf(k, e.messageKey)), Part(amount, VUint(e.amount)), Part(remoteBlockchainId, TextOf(k, e.remoteBlockchainId)),
     Part(remoteAddress, TextOf(k, e.remoteAddress)), Part(hasUniqueAuthorisedSource, VBool(e.hasUniqueAuthorisedSource)),
     Part(routeMatchesSource, VBool(e.routeMatchesSource)), Part(duplicateEffect, VBool(e.duplicateEffect)),
     Part(causalSourceFact, OptionOf(Texts(k), e.causalSourceFact))]
  }

  function Effects(k: Letters): RouteAssessment.CreditedEffect -> Val {
    e => RecordOf(k, EffectParts(k, e))
  }

  function EscrowParts(k: Letters, h: ProofInputs.HomeEscrow): seq<Part> {
    [Part(escrowBalance, OptionOf(Uints(), h.escrowBalance)), Part(homePin, OptionOf(Pins(k), h.homePin)),
     Part(acceptedCollateralHomeUnits, VUint(h.acceptedCollateral))]
  }

  function CensusName(c: ProofInputs.Census): Name {
    match c
    case CompleteFromDeploymentBlock => completeFromDeploymentBlock
    case PartialCensus => partial
    case UnknownCensus => unknown
  }

  function CutName(c: ProofInputs.CutState): Name {
    match c
    case Closed => closed
    case Open => open
    case Gap => gap
  }

  function FamilyText(k: Letters, f: ProofInputs.Family): string {
    match f
    case CanonicalErc20SingleHop => k.canonicalFamily
    case OtherFamily(name) => name
  }

  function InputParts(k: Letters, p: ProofInputs.ProofInput): seq<Part> {
    [Part(deploymentId, TextOf(k, p.deploymentId)), Part(family, TextOf(k, FamilyText(k, p.family))),
     Part(provenance, RecordOf(k, ProvenanceParts(k, p.provenance))), Part(census, VText(k.spell(CensusName(p.census)))),
     Part(cut, VText(k.spell(CutName(p.cut)))), Part(untrackedRemotes, ListOf(Texts(k), p.untrackedRemotes)),
     Part(freshness, RecordOf(k, FreshnessParts(k, p.freshness))), Part(remotes, ListOf(Remotes(k), p.remotes)),
     Part(pending, ListOf(Pendings(k), p.pending)), Part(effects, ListOf(Effects(k), p.effects)),
     Part(homeEscrow, RecordOf(k, EscrowParts(k, p.homeEscrow))), Part(pendingAgeLimitSeconds, VCount(p.pendingAgeLimitSeconds))]
  }

  function ToVal(k: Letters, p: ProofInputs.ProofInput): Val {
    RecordOf(k, InputParts(k, p))
  }

  // ---- no two inputs are one value

  ghost predicate OneToOne<T(!new)>(f: T -> Val) {
    forall x, y :: f(x) == f(y) ==> x == y
  }

  ghost predicate NeverNull<T(!new)>(f: T -> Val) {
    forall x :: f(x) != VNull
  }

  lemma RecordOneToOne(k: Letters, a: seq<Part>, b: seq<Part>)
    requires RecordOf(k, a) == RecordOf(k, b)
    ensures |a| == |b| && forall i :: 0 <= i < |a| ==> a[i].value == b[i].value
  {
    var x, y := RecordOf(k, a).fields, RecordOf(k, b).fields;
    forall i | 0 <= i < |a| ensures a[i].value == b[i].value {
      assert x[i] == y[i];
    }
  }

  lemma OptionOneToOne<T(!new)>(f: T -> Val, x: Option<T>, y: Option<T>)
    requires OneToOne(f) && NeverNull(f) && OptionOf(f, x) == OptionOf(f, y)
    ensures x == y
  {
    if x.Some? {
      assert f(x.value) != VNull;
    }
    if y.Some? {
      assert f(y.value) != VNull;
    }
  }

  lemma ListOneToOne<T(!new)>(f: T -> Val, xs: seq<T>, ys: seq<T>)
    requires OneToOne(f) && ListOf(f, xs) == ListOf(f, ys)
    ensures xs == ys
  {
    var a, b := Map(f, xs), Map(f, ys);
    forall i | 0 <= i < |xs| ensures xs[i] == ys[i] {
      assert a[i] == b[i];
    }
  }

  lemma ScalarsOneToOne(k: Letters)
    requires GoodLetters(k)
    ensures OneToOne(Texts(k)) && NeverNull(Texts(k)) && OneToOne(Uints()) && NeverNull(Uints()) && OneToOne(Counts()) && NeverNull(Counts())
  {
    forall x, y | Texts(k)(x) == Texts(k)(y) ensures x == y {
      assert k.units(x) == k.units(y);
    }
  }

  lemma PinsOneToOne(k: Letters)
    requires GoodLetters(k)
    ensures OneToOne(Pins(k)) && NeverNull(Pins(k))
  {
    forall x, y | Pins(k)(x) == Pins(k)(y) ensures x == y {
      var a, b := PinParts(k, x), PinParts(k, y);
      RecordOneToOne(k, a, b);
      assert a[0].value == b[0].value && a[1].value == b[1].value && a[2].value == b[2].value;
    }
  }

  lemma ProvenanceOneToOne(k: Letters, x: ProofInputs.Provenance, y: ProofInputs.Provenance)
    requires GoodLetters(k) && RecordOf(k, ProvenanceParts(k, x)) == RecordOf(k, ProvenanceParts(k, y))
    ensures x == y
  {
    var a, b := ProvenanceParts(k, x), ProvenanceParts(k, y);
    RecordOneToOne(k, a, b);
    ScalarsOneToOne(k);
    assert a[0].value == b[0].value && a[1].value == b[1].value && a[2].value == b[2].value;
    assert a[3].value == b[3].value && a[4].value == b[4].value && a[5].value == b[5].value;
    OptionOneToOne(Texts(k), x.manifestHash, y.manifestHash);
    OptionOneToOne(Texts(k), x.policyHash, y.policyHash);
    OptionOneToOne(Texts(k), x.sourceLockCommitSha, y.sourceLockCommitSha);
    OptionOneToOne(Texts(k), x.adapterId, y.adapterId);
    OptionOneToOne(Counts(), x.adapterVersion, y.adapterVersion);
  }

  lemma FreshnessOneToOne(k: Letters, x: ProofInputs.Freshness, y: ProofInputs.Freshness)
    requires RecordOf(k, FreshnessParts(k, x)) == RecordOf(k, FreshnessParts(k, y))
    ensures x == y
  {
    var a, b := FreshnessParts(k, x), FreshnessParts(k, y);
    RecordOneToOne(k, a, b);
    assert a[0].value == b[0].value && a[1].value == b[1].value && a[2].value == b[2].value;
  }

  lemma ScaleOneToOne(k: Letters, x: ProofInputs.TokenScale, y: ProofInputs.TokenScale)
    requires RecordOf(k, ScaleParts(k, x)) == RecordOf(k, ScaleParts(k, y))
    ensures x == y
  {
    var a, b := ScaleParts(k, x), ScaleParts(k, y);
    RecordOneToOne(k, a, b);
    assert a[0].value == b[0].value && a[1].value == b[1].value && a[2].value == b[2].value;
    assert a[3].value == b[3].value && a[4].value == b[4].value;
  }

  lemma RemoteOneToOne(k: Letters, x: ProofInputs.RemoteObservation, y: ProofInputs.RemoteObservation)
    requires GoodLetters(k) && RecordOf(k, RemoteParts(k, x)) == RecordOf(k, RemoteParts(k, y))
    ensures x == y
  {
    var a, b := RemoteParts(k, x), RemoteParts(k, y);
    RecordOneToOne(k, a, b);
    ScalarsOneToOne(k);
    PinsOneToOne(k);
    assert a[0].value == b[0].value && a[1].value == b[1].value && a[2].value == b[2].value && a[3].value == b[3].value;
    assert a[4].value == b[4].value && a[5].value == b[5].value && a[6].value == b[6].value && a[7].value == b[7].value;
    assert a[8].value == b[8].value && a[9].value == b[9].value && a[10].value == b[10].value;
    OptionOneToOne(Uints(), x.transferredBalance, y.transferredBalance);
    OptionOneToOne(Uints(), x.remoteTotalSupply, y.remoteTotalSupply);
    ScaleOneToOne(k, x.scale, y.scale);
    OptionOneToOne(Pins(k), x.homePin, y.homePin);
    OptionOneToOne(Pins(k), x.remotePin, y.remotePin);
  }

  /** Two fields of one name and one place. */
  lemma SamePart(k: Letters, a: seq<Part>, b: seq<Part>, i: nat)
    requires RecordOf(k, a) == RecordOf(k, b) && i < |a|
    ensures |a| == |b| && a[i].value == b[i].value
  {
    RecordOneToOne(k, a, b);
  }

  lemma SameText(k: Letters, s: string, t: string)
    requires GoodLetters(k) && TextOf(k, s) == TextOf(k, t)
    ensures s == t
  {
  }

  lemma SameName(k: Letters, a: Name, b: Name)
    requires GoodLetters(k) && VText(k.spell(a)) == VText(k.spell(b))
    ensures a == b
  {
  }

  lemma PendingParted(k: Letters, x: RouteAssessment.PendingEnvelope, y: RouteAssessment.PendingEnvelope)
    requires RecordOf(k, PendingParts(k, x)) == RecordOf(k, PendingParts(k, y))
    ensures TextOf(k, x.messageKey) == TextOf(k, y.messageKey)
    ensures VText(k.spell(DirectionName(x.direction))) == VText(k.spell(DirectionName(y.direction)))
    ensures x.amount == y.amount && x.ageSeconds == y.ageSeconds
    ensures TextOf(k, x.remoteBlockchainId) == TextOf(k, y.remoteBlockchainId) && TextOf(k, x.remoteAddress) == TextOf(k, y.remoteAddress)
  {
    var a, b := PendingParts(k, x), PendingParts(k, y);
    RecordOneToOne(k, a, b);
    assert a[0].value == b[0].value && a[1].value == b[1].value && a[2].value == b[2].value;
    assert a[3].value == b[3].value && a[4].value == b[4].value && a[5].value == b[5].value;
  }

  lemma PendingOneToOne(k: Letters, x: RouteAssessment.PendingEnvelope, y: RouteAssessment.PendingEnvelope)
    requires GoodLetters(k) && RecordOf(k, PendingParts(k, x)) == RecordOf(k, PendingParts(k, y))
    ensures x == y
  {
    PendingParted(k, x, y);
    SameText(k, x.messageKey, y.messageKey);
    SameName(k, DirectionName(x.direction), DirectionName(y.direction));
    SameText(k, x.remoteBlockchainId, y.remoteBlockchainId);
    SameText(k, x.remoteAddress, y.remoteAddress);
  }

  lemma EffectOneToOne(k: Letters, x: RouteAssessment.CreditedEffect, y: RouteAssessment.CreditedEffect)
    requires GoodLetters(k) && RecordOf(k, EffectParts(k, x)) == RecordOf(k, EffectParts(k, y))
    ensures x == y
  {
    var a, b := EffectParts(k, x), EffectParts(k, y);
    RecordOneToOne(k, a, b);
    ScalarsOneToOne(k);
    assert a[0].value == b[0].value && a[1].value == b[1].value && a[2].value == b[2].value && a[3].value == b[3].value;
    assert a[4].value == b[4].value && a[5].value == b[5].value && a[6].value == b[6].value && a[7].value == b[7].value;
    OptionOneToOne(Texts(k), x.causalSourceFact, y.causalSourceFact);
  }

  lemma ListsOneToOne(k: Letters)
    requires GoodLetters(k)
    ensures OneToOne(Remotes(k)) && OneToOne(Pendings(k)) && OneToOne(Effects(k))
  {
    forall x, y | Remotes(k)(x) == Remotes(k)(y) ensures x == y {
      RemoteOneToOne(k, x, y);
    }
    forall x, y | Pendings(k)(x) == Pendings(k)(y) ensures x == y {
      PendingOneToOne(k, x, y);
    }
    forall x, y | Effects(k)(x) == Effects(k)(y) ensures x == y {
      EffectOneToOne(k, x, y);
    }
  }

  lemma EscrowOneToOne(k: Letters, x: ProofInputs.HomeEscrow, y: ProofInputs.HomeEscrow)
    requires GoodLetters(k) && RecordOf(k, EscrowParts(k, x)) == RecordOf(k, EscrowParts(k, y))
    ensures x == y
  {
    var a, b := EscrowParts(k, x), EscrowParts(k, y);
    RecordOneToOne(k, a, b);
    ScalarsOneToOne(k);
    PinsOneToOne(k);
    assert a[0].value == b[0].value && a[1].value == b[1].value && a[2].value == b[2].value;
    OptionOneToOne(Uints(), x.escrowBalance, y.escrowBalance);
    OptionOneToOne(Pins(k), x.homePin, y.homePin);
  }

  /** The supported family is written one way only. */
  predicate FamilyPlain(k: Letters, f: ProofInputs.Family) {
    f.OtherFamily? ==> f.name != k.canonicalFamily
  }

  lemma SameFamily(k: Letters, x: ProofInputs.Family, y: ProofInputs.Family)
    requires GoodLetters(k) && FamilyPlain(k, x) && FamilyPlain(k, y) && TextOf(k, FamilyText(k, x)) == TextOf(k, FamilyText(k, y))
    ensures x == y
  {
    SameText(k, FamilyText(k, x), FamilyText(k, y));
  }

  lemma InputParted(k: Letters, x: ProofInputs.ProofInput, y: ProofInputs.ProofInput)
    requires ToVal(k, x) == ToVal(k, y)
    ensures TextOf(k, x.deploymentId) == TextOf(k, y.deploymentId)
    ensures TextOf(k, FamilyText(k, x.family)) == TextOf(k, FamilyText(k, y.family))
    ensures RecordOf(k, ProvenanceParts(k, x.provenance)) == RecordOf(k, ProvenanceParts(k, y.provenance))
    ensures VText(k.spell(CensusName(x.census))) == VText(k.spell(CensusName(y.census)))
    ensures VText(k.spell(CutName(x.cut))) == VText(k.spell(CutName(y.cut)))
    ensures ListOf(Texts(k), x.untrackedRemotes) == ListOf(Texts(k), y.untrackedRemotes)
  {
    var a, b := InputParts(k, x), InputParts(k, y);
    SamePart(k, a, b, 0);
    SamePart(k, a, b, 1);
    SamePart(k, a, b, 2);
    SamePart(k, a, b, 3);
    SamePart(k, a, b, 4);
    SamePart(k, a, b, 5);
  }

  lemma InputPartedRest(k: Letters, x: ProofInputs.ProofInput, y: ProofInputs.ProofInput)
    requires ToVal(k, x) == ToVal(k, y)
    ensures RecordOf(k, FreshnessParts(k, x.freshness)) == RecordOf(k, FreshnessParts(k, y.freshness))
    ensures ListOf(Remotes(k), x.remotes) == ListOf(Remotes(k), y.remotes)
    ensures ListOf(Pendings(k), x.pending) == ListOf(Pendings(k), y.pending)
    ensures ListOf(Effects(k), x.effects) == ListOf(Effects(k), y.effects)
    ensures RecordOf(k, EscrowParts(k, x.homeEscrow)) == RecordOf(k, EscrowParts(k, y.homeEscrow))
    ensures x.pendingAgeLimitSeconds == y.pendingAgeLimitSeconds
  {
    var a, b := InputParts(k, x), InputParts(k, y);
    SamePart(k, a, b, 6);
    SamePart(k, a, b, 7);
    SamePart(k, a, b, 8);
    SamePart(k, a, b, 9);
    SamePart(k, a, b, 10);
    SamePart(k, a, b, 11);
  }

  lemma InputFieldsOneToOne(k: Letters, x: ProofInputs.ProofInput, y: ProofInputs.ProofInput)
    requires GoodLetters(k) && ToVal(k, x) == ToVal(k, y)
    ensures x.freshness == y.freshness && x.homeEscrow == y.homeEscrow && x.pendingAgeLimitSeconds == y.pendingAgeLimitSeconds
    ensures x.remotes == y.remotes && x.pending == y.pending && x.effects == y.effects
  {
    InputPartedRest(k, x, y);
    ListsOneToOne(k);
    FreshnessOneToOne(k, x.freshness, y.freshness);
    EscrowOneToOne(k, x.homeEscrow, y.homeEscrow);
    ListOneToOne(Remotes(k), x.remotes, y.remotes);
    ListOneToOne(Pendings(k), x.pending, y.pending);
    ListOneToOne(Effects(k), x.effects, y.effects);
  }

  lemma InputScalarsOneToOne(k: Letters, x: ProofInputs.ProofInput, y: ProofInputs.ProofInput)
    requires GoodLetters(k) && FamilyPlain(k, x.family) && FamilyPlain(k, y.family) && ToVal(k, x) == ToVal(k, y)
    ensures x.deploymentId == y.deploymentId && x.family == y.family && x.census == y.census && x.cut == y.cut
    ensures x.provenance == y.provenance && x.untrackedRemotes == y.untrackedRemotes
  {
    InputParted(k, x, y);
    SameText(k, x.deploymentId, y.deploymentId);
    SameFamily(k, x.family, y.family);
    SameName(k, CensusName(x.census), CensusName(y.census));
    SameName(k, CutName(x.cut), CutName(y.cut));
    ProvenanceOneToOne(k, x.provenance, y.provenance);
    ScalarsOneToOne(k);
    ListOneToOne(Texts(k), x.untrackedRemotes, y.untrackedRemotes);
  }

  /** Nothing of a proof input is lost in the value written for it. */
  lemma InputOneToOne(k: Letters, x: ProofInputs.ProofInput, y: ProofInputs.ProofInput)
    requires GoodLetters(k) && FamilyPlain(k, x.family) && FamilyPlain(k, y.family)
    ensures ToVal(k, x) == ToVal(k, y) <==> x == y
  {
    if ToVal(k, x) == ToVal(k, y) {
      InputFieldsOneToOne(k, x, y);
      InputScalarsOneToOne(k, x, y);
    }
  }

  // ---- the inputs the format can carry

  predicate TextOk(nfc: Nfc, k: Letters, s: string) {
    nfc(k.units(s)) == k.units(s)
  }

  predicate UintOk(n: int) {
    0 <= n < UINT_END
  }

  predicate CountOk(n: int) {
    0 <= n <= MAX_SAFE_INTEGER
  }

  predicate PinOk(nfc: Nfc, k: Letters, p: ProofInputs.PinnedBlock) {
    TextOk(nfc, k, p.blockchainId) && UintOk(p.blockNumber) && TextOk(nfc, k, p.blockHash)
  }

  predicate OptionalText(nfc: Nfc, k: Letters, s: Option<string>) {
    s.Some? ==> TextOk(nfc, k, s.value)
  }

  predicate ProvenanceOk(nfc: Nfc, k: Letters, p: ProofInputs.Provenance) {
    && OptionalText(nfc, k, p.manifestHash) && OptionalText(nfc, k, p.policyHash) && OptionalText(nfc, k, p.sourceLockCommitSha)
    && OptionalText(nfc, k, p.adapterId) && (p.adapterVersion.Some? ==> CountOk(p.adapterVersion.value)) && TextOk(nfc, k, p.ruleVersion)
  }

  predicate ScaleOk(s: ProofInputs.TokenScale) {
    UintOk(s.tokenMultiplier) && CountOk(s.homeDecimals) && CountOk(s.remoteDecimals)
  }

  predicate RemoteOk(nfc: Nfc, k: Letters, r: ProofInputs.RemoteObservation) {
    && TextOk(nfc, k, r.remoteBlockchainId) && TextOk(nfc, k, r.remoteAddress)
    && (r.transferredBalance.Some? ==> UintOk(r.transferredBalance.value)) && (r.remoteTotalSupply.Some? ==> UintOk(r.remoteTotalSupply.value))
    && ScaleOk(r.scale) && UintOk(r.initialReserveImbalance)
    && (r.homePin.Some? ==> PinOk(nfc, k, r.homePin.value)) && (r.remotePin.Some? ==> PinOk(nfc, k, r.remotePin.value))
  }

  predicate PendingOk(nfc: Nfc, k: Letters, e: RouteAssessment.PendingEnvelope) {
    && TextOk(nfc, k, e.messageKey) && UintOk(e.amount) && CountOk(e.ageSeconds)
    && TextOk(nfc, k, e.remoteBlockchainId) && TextOk(nfc, k, e.remoteAddress)
  }

  predicate EffectOk(nfc: Nfc, k: Letters, e: RouteAssessment.CreditedEffect) {
    && TextOk(nfc, k, e.messageKey) && UintOk(e.amount) && TextOk(nfc, k, e.remoteBlockchainId) && TextOk(nfc, k, e.remoteAddress)
    && OptionalText(nfc, k, e.causalSourceFact)
  }

  predicate EscrowOk(nfc: Nfc, k: Letters, h: ProofInputs.HomeEscrow) {
    && (h.escrowBalance.Some? ==> UintOk(h.escrowBalance.value)) && (h.homePin.Some? ==> PinOk(nfc, k, h.homePin.value))
    && UintOk(h.acceptedCollateral)
  }

  /** Normalised text, amounts below 2^256, safe counts. */
  predicate InputOk(nfc: Nfc, k: Letters, p: ProofInputs.ProofInput) {
    && TextOk(nfc, k, p.deploymentId) && TextOk(nfc, k, FamilyText(k, p.family)) && FamilyPlain(k, p.family)
    && ProvenanceOk(nfc, k, p.provenance)
    && (forall i :: 0 <= i < |p.untrackedRemotes| ==> TextOk(nfc, k, p.untrackedRemotes[i]))
    && CountOk(p.freshness.independentWitnessGroups) && CountOk(p.freshness.requiredWitnessGroups)
    && (forall i :: 0 <= i < |p.remotes| ==> RemoteOk(nfc, k, p.remotes[i]))
    && (forall i :: 0 <= i < |p.pending| ==> PendingOk(nfc, k, p.pending[i]))
    && (forall i :: 0 <= i < |p.effects| ==> EffectOk(nfc, k, p.effects[i]))
    && EscrowOk(nfc, k, p.homeEscrow) && CountOk(p.pendingAgeLimitSeconds)
  }

  ghost predicate PartsFit(nfc: Nfc, fields: seq<Named>, parts: seq<Part>) {
    |parts| == |fields| && forall i :: 0 <= i < |fields| ==> parts[i].name == fields[i].name && Fits(nfc, fields[i].schema, parts[i].value)
  }

  lemma RecordFits(nfc: Nfc, k: Letters, fields: seq<Named>, parts: seq<Part>)
    requires PartsFit(nfc, fields, parts)
    ensures Fits(nfc, Record(k.spell, fields), RecordOf(k, parts))
  {
    var slots, vs := Record(k.spell, fields).slots, RecordOf(k, parts).fields;
    forall i | 0 <= i < |slots| ensures vs[i].key == slots[i].key && Fits(nfc, slots[i].schema, vs[i].value) {
      assert slots[i] == Slot(k.spell(fields[i].name), fields[i].schema) && vs[i] == VField(k.spell(parts[i].name), parts[i].value);
    }
  }

  lemma ChoiceFits(nfc: Nfc, k: Letters, names: seq<Name>, n: Name)
    requires n in names
    ensures Fits(nfc, OneOf(k.spell, names), VText(k.spell(n)))
  {
    var i :| 0 <= i < |names| && names[i] == n;
    assert Map(k.spell, names)[i] == k.spell(n);
  }

  lemma NullableFits(nfc: Nfc, inner: Schema, v: Val)
    requires v.VNull? || Fits(nfc, inner, v)
    ensures Fits(nfc, SNullable(inner), v)
  {
  }

  lemma ListFits<T>(nfc: Nfc, item: Schema, f: T -> Val, xs: seq<T>)
    requires forall i :: 0 <= i < |xs| ==> Fits(nfc, item, f(xs[i]))
    ensures Fits(nfc, SArray(item), ListOf(f, xs))
  {
  }

  lemma PinFits(nfc: Nfc, k: Letters, p: ProofInputs.PinnedBlock)
    requires PinOk(nfc, k, p)
    ensures Fits(nfc, Pin(k.spell), RecordOf(k, PinParts(k, p)))
  {
    RecordFits(nfc, k, PinFields(k.spell), PinParts(k, p));
  }

  lemma OptionalPinFits(nfc: Nfc, k: Letters, p: Option<ProofInputs.PinnedBlock>)
    requires p.Some? ==> PinOk(nfc, k, p.value)
    ensures Fits(nfc, SNullable(Pin(k.spell)), OptionOf(Pins(k), p))
  {
    if p.Some? {
      PinFits(nfc, k, p.value);
    }
    NullableFits(nfc, Pin(k.spell), OptionOf(Pins(k), p));
  }

  lemma OptionalScalarsFit(nfc: Nfc, k: Letters, s: Option<string>, n: Option<int>)
    ensures OptionalText(nfc, k, s) ==> Fits(nfc, SNullable(SText), OptionOf(Texts(k), s))
    ensures (n.Some? ==> UintOk(n.value)) ==> Fits(nfc, SNullable(SUint), OptionOf(Uints(), n))
    ensures (n.Some? ==> CountOk(n.value)) ==> Fits(nfc, SNullable(SCount), OptionOf(Counts(), n))
  {
  }

  lemma ProvenanceFits(nfc: Nfc, k: Letters, p: ProofInputs.Provenance)
    requires ProvenanceOk(nfc, k, p)
    ensures Fits(nfc, Provenance(k.spell), RecordOf(k, ProvenanceParts(k, p)))
  {
    OptionalScalarsFit(nfc, k, p.manifestHash, p.adapterVersion);
    OptionalScalarsFit(nfc, k, p.policyHash, None);
    OptionalScalarsFit(nfc, k, p.sourceLockCommitSha, None);
    OptionalScalarsFit(nfc, k, p.adapterId, None);
    RecordFits(nfc, k, ProvenanceFields(k.spell), ProvenanceParts(k, p));
  }

  lemma FreshnessFits(nfc: Nfc, k: Letters, f: ProofInputs.Freshness)
    requires CountOk(f.independentWitnessGroups) && CountOk(f.requiredWitnessGroups)
    ensures Fits(nfc, Freshness(k.spell), RecordOf(k, FreshnessParts(k, f)))
  {
    RecordFits(nfc, k, FreshnessFields(k.spell), FreshnessParts(k, f));
  }

  lemma ScaleFits(nfc: Nfc, k: Letters, s: ProofInputs.TokenScale)
    requires ScaleOk(s)
    ensures Fits(nfc, Scale(k.spell), RecordOf(k, ScaleParts(k, s)))
  {
    RecordFits(nfc, k, ScaleFields(k.spell), ScaleParts(k, s));
  }

  /** Fields may be checked in two halves. */
  lemma HalvesFit(nfc: Nfc, fields: seq<Named>, parts: seq<Part>, n: nat)
    requires n <= |fields| == |parts| && PartsFit(nfc, fields[..n], parts[..n]) && PartsFit(nfc, fields[n..], parts[n..])
    ensures PartsFit(nfc, fields, parts)
  {
    forall i | 0 <= i < |fields| ensures parts[i].name == fields[i].name && Fits(nfc, fields[i].schema, parts[i].value) {
      if i < n {
        assert fields[..n][i] == fields[i] && parts[..n][i] == parts[i];
      } else {
        assert fields[n..][i - n] == fields[i] && parts[n..][i - n] == parts[i];
      }
    }
  }

  lemma RemoteHeadFits(nfc: Nfc, k: Letters, r: ProofInputs.RemoteObservation)
    requires RemoteOk(nfc, k, r)
    ensures PartsFit(nfc, RemoteFields(k.spell)[..4], RemoteParts(k, r)[..4])
  {
    OptionalScalarsFit(nfc, k, None, r.transferredBalance);
    OptionalScalarsFit(nfc, k, None, r.remoteTotalSupply);
  }

  /** Whatever the schemas of the nested records. */
  lemma TailFits(nfc: Nfc, nested: Schema, pin: Schema, s: Val, home: Val, remote: Val, a: bool, b: bool, c: bool, n: int)
    requires Fits(nfc, nested, s) && Fits(nfc, pin, home) && Fits(nfc, pin, remote) && UintOk(n)
    ensures PartsFit(nfc,
                     [Named(scale, nested), Named(homePin, pin), Named(remotePin, pin), Named(fingerprintRecognised, SBool),
                      Named(tokenBehaviourCanonical, SBool), Named(routeSingleHop, SBool), Named(initialReserveImbalance, SUint)],
                     [Part(scale, s), Part(homePin, home), Part(remotePin, remote), Part(fingerprintRecognised, VBool(a)),
                      Part(tokenBehaviourCanonical, VBool(b)), Part(routeSingleHop, VBool(c)), Part(initialReserveImbalance, VUint(n))])
  {
  }

  lemma RemoteTailFits(nfc: Nfc, k: Letters, r: ProofInputs.RemoteObservation)
    requires RemoteOk(nfc, k, r)
    ensures PartsFit(nfc, RemoteFields(k.spell)[4..], RemoteParts(k, r)[4..])
  {
    ScaleFits(nfc, k, r.scale);
    OptionalPinFits(nfc, k, r.homePin);
    OptionalPinFits(nfc, k, r.remotePin);
    TailFits(nfc, Scale(k.spell), SNullable(Pin(k.spell)), RecordOf(k, ScaleParts(k, r.scale)), OptionOf(Pins(k), r.homePin),
             OptionOf(Pins(k), r.remotePin), r.fingerprintRecognised, r.tokenBehaviourCanonical, r.routeSingleHop, r.initialReserveImbalance);
  }

  lemma RemoteFits(nfc: Nfc, k: Letters, r: ProofInputs.RemoteObservation)
    requires RemoteOk(nfc, k, r)
    ensures Fits(nfc, Remote(k.spell), Remotes(k)(r))
  {
    RemoteHeadFits(nfc, k, r);
    RemoteTailFits(nfc, k, r);
    HalvesFit(nfc, RemoteFields(k.spell), RemoteParts(k, r), 4);
    RecordFits(nfc, k, RemoteFields(k.spell), RemoteParts(k, r));
  }

  lemma PendingFits(nfc: Nfc, k: Letters, e: RouteAssessment.PendingEnvelope)
    requires PendingOk(nfc, k, e)
    ensures Fits(nfc, Pending(k.spell), Pendings(k)(e))
  {
    ChoiceFits(nfc, k, [homeToRemote, remoteToHome], DirectionName(e.direction));
    RecordFits(nfc, k, PendingFields(k.spell), PendingParts(k, e));
  }

  lemma EffectFits(nfc: Nfc, k: Letters, e: RouteAssessment.CreditedEffect)
    requires EffectOk(nfc, k, e)
    ensures Fits(nfc, Effect(k.spell), Effects(k)(e))
  {
    OptionalScalarsFit(nfc, k, e.causalSourceFact, None);
    RecordFits(nfc, k, EffectFields(k.spell), EffectParts(k, e));
  }

  lemma EscrowPartsFit(nfc: Nfc, balance: Schema, pin: Schema, v: Val, home: Val, n: int)
    requires Fits(nfc, balance, v) && Fits(nfc, pin, home) && UintOk(n)
    ensures PartsFit(nfc, [Named(escrowBalance, balance), Named(homePin, pin), Named(acceptedCollateralHomeUnits, SUint)],
                     [Part(escrowBalance, v), Part(homePin, home), Part(acceptedCollateralHomeUnits, VUint(n))])
  {
  }

  lemma EscrowFits(nfc: Nfc, k: Letters, h: ProofInputs.HomeEscrow)
    requires EscrowOk(nfc, k, h)
    ensures Fits(nfc, Escrow(k.spell), RecordOf(k, EscrowParts(k, h)))
  {
    OptionalScalarsFit(nfc, k, None, h.escrowBalance);
    OptionalPinFits(nfc, k, h.homePin);
    EscrowPartsFit(nfc, SNullable(SUint), SNullable(Pin(k.spell)), OptionOf(Uints(), h.escrowBalance), OptionOf(Pins(k), h.homePin), h.acceptedCollateral);
    RecordFits(nfc, k, EscrowFields(k.spell), EscrowParts(k, h));
  }

  lemma ListsFit(nfc: Nfc, k: Letters, p: ProofInputs.ProofInput)
    requires InputOk(nfc, k, p)
    ensures Fits(nfc, SArray(Remote(k.spell)), ListOf(Remotes(k), p.remotes))
    ensures Fits(nfc, SArray(Pending(k.spell)), ListOf(Pendings(k), p.pending))
    ensures Fits(nfc, SArray(Effect(k.spell)), ListOf(Effects(k), p.effects))
  {
    forall i | 0 <= i < |p.remotes| ensures Fits(nfc, Remote(k.spell), Remotes(k)(p.remotes[i])) {
      RemoteFits(nfc, k, p.remotes[i]);
    }
    ListFits(nfc, Remote(k.spell), Remotes(k), p.remotes);
    forall i | 0 <= i < |p.pending| ensures Fits(nfc, Pending(k.spell), Pendings(k)(p.pending[i])) {
      PendingFits(nfc, k, p.pending[i]);
    }
    ListFits(nfc, Pending(k.spell), Pendings(k), p.pending);
    forall i | 0 <= i < |p.effects| ensures Fits(nfc, Effect(k.spell), Effects(k)(p.effects[i])) {
      EffectFits(nfc, k, p.effects[i]);
    }
    ListFits(nfc, Effect(k.spell), Effects(k), p.effects);
  }

  lemma RecordsFit(nfc: Nfc, k: Letters, p: ProofInputs.ProofInput)
    requires InputOk(nfc, k, p)
    ensures Fits(nfc, Provenance(k.spell), RecordOf(k, ProvenanceParts(k, p.provenance)))
    ensures Fits(nfc, Freshness(k.spell), RecordOf(k, FreshnessParts(k, p.freshness)))
    ensures Fits(nfc, Escrow(k.spell), RecordOf(k, EscrowParts(k, p.homeEscrow)))
    ensures Fits(nfc, SArray(SText), ListOf(Texts(k), p.untrackedRemotes))
  {
    ProvenanceFits(nfc, k, p.provenance);
    FreshnessFits(nfc, k, p.freshness);
    EscrowFits(nfc, k, p.homeEscrow);
    ListFits(nfc, SText, Texts(k), p.untrackedRemotes);
  }

  lemma InputHeadFits(nfc: Nfc, k: Letters, p: ProofInputs.ProofInput)
    requires InputOk(nfc, k, p)
    ensures PartsFit(nfc, ProofInputFields(k.spell)[..6], InputParts(k, p)[..6])
  {
    RecordsFit(nfc, k, p);
    ChoiceFits(nfc, k, [completeFromDeploymentBlock, partial, unknown], CensusName(p.census));
    ChoiceFits(nfc, k, [closed, open, gap], CutName(p.cut));
  }

  lemma LastPartsFit(nfc: Nfc, f: Schema, rs: Schema, ps: Schema, es: Schema, h: Schema, u: Val, v: Val, w: Val, x: Val, y: Val, n: int)
    requires Fits(nfc, f, u) && Fits(nfc, rs, v) && Fits(nfc, ps, w) && Fits(nfc, es, x) && Fits(nfc, h, y) && CountOk(n)
    ensures PartsFit(nfc,
                     [Named(freshness, f), Named(remotes, rs), Named(pending, ps), Named(effects, es), Named(homeEscrow, h),
                      Named(pendingAgeLimitSeconds, SCount)],
                     [Part(freshness, u), Part(remotes, v), Part(pending, w), Part(effects, x), Part(homeEscrow, y),
                      Part(pendingAgeLimitSeconds, VCount(n))])
  {
  }

  lemma InputTailFits(nfc: Nfc, k: Letters, p: ProofInputs.ProofInput)
    requires InputOk(nfc, k, p)
    ensures PartsFit(nfc, ProofInputFields(k.spell)[6..], InputParts(k, p)[6..])
  {
    RecordsFit(nfc, k, p);
    ListsFit(nfc, k, p);
    LastPartsFit(nfc, Freshness(k.spell), SArray(Remote(k.spell)), SArray(Pending(k.spell)), SArray(Effect(k.spell)), Escrow(k.spell),
                 RecordOf(k, FreshnessParts(k, p.freshness)), ListOf(Remotes(k), p.remotes), ListOf(Pendings(k), p.pending),
                 ListOf(Effects(k), p.effects), RecordOf(k, EscrowParts(k, p.homeEscrow)), p.pendingAgeLimitSeconds);
  }

  lemma InputFits(nfc: Nfc, k: Letters, p: ProofInputs.ProofInput)
    requires InputOk(nfc, k, p)
    ensures Fits(nfc, ProofInput(k.spell), ToVal(k, p))
  {
    InputHeadFits(nfc, k, p);
    InputTailFits(nfc, k, p);
    HalvesFit(nfc, ProofInputFields(k.spell), InputParts(k, p), 6);
    RecordFits(nfc, k, ProofInputFields(k.spell), InputParts(k, p));
  }

  /** `p` is the proof input that the document decodes to. */
  ghost predicate DecodesTo(nfc: Nfc, k: Letters, j: Json, p: ProofInputs.ProofInput) {
    FamilyPlain(k, p.family) && Decode(nfc, ProofInput(k.spell), j) == Some(ToVal(k, p))
  }

  /** Every proof input within the format's ranges is encoded, and the document decodes to it and to no other. */
  lemma ProofInputSurvives(nfc: Nfc, k: Letters, p: ProofInputs.ProofInput)
    requires IsNfc(nfc) && GoodLetters(k) && InputOk(nfc, k, p)
    ensures var j := Encode(nfc, ToVal(k, p)); j.Some? && forall q :: DecodesTo(nfc, k, j.value, q) <==> q == p
  {
    InputFits(nfc, k, p);
    ProofInputRoundTrip(nfc, k.spell, ToVal(k, p));
    var j := Encode(nfc, ToVal(k, p)).value;
    forall q ensures DecodesTo(nfc, k, j, q) <==> q == p {
      if FamilyPlain(k, q.family) {
        InputOneToOne(k, p, q);
      }
    }
  }
}
