// The record the proof-input decoder reads,
// field by field.
module ProofSchema {
  import opened Collections
  import opened CanonicalText
  import opened CanonicalMeaning
  import opened CanonicalParse
  import opened CanonicalJson
  import opened ProofCodec

  /** The field names and enumeration values of the format. */
  datatype Name =
    | blockchainId | blockNumber | blockHash
    | manifestHash | policyHash | sourceLockCommitSha | adapterId | adapterVersion | ruleVersion
    | isFresh | independentWitnessGroups | requiredWitnessGroups
    | tokenMultiplier | multiplyOnRemote | homeDecimals | remoteDecimals | established
    | remoteBlockchainId | remoteAddress | transferredBalance | remoteTotalSupply | scale | homePin | remotePin
    | fingerprintRecognised | tokenBehaviourCanonical | routeSingleHop | initialReserveImbalance
    | messageKey | direction | amount | ageSeconds
    | hasUniqueAuthorisedSource | routeMatchesSource | duplicateEffect | causalSourceFact
    | escrowBalance | acceptedCollateralHomeUnits
    | deploymentId | family | provenance | census | cut | untrackedRemotes | freshness | remotes | pending | effects | homeEscrow
    | pendingAgeLimitSeconds
    | completeFromDeploymentBlock | partial | unknown | closed | open | gap | homeToRemote | remoteToHome

  /** How each name is spelt. */
  type Spelling = Name -> Text

  /** Different names are spelt differently, in ASCII. */
  ghost predicate GoodSpelling(spell: Spelling) {
    (forall a, b :: spell(a) == spell(b) ==> a == b) && forall a :: IsAscii(spell(a))
  }

  datatype Named = Named(name: Name, schema: Schema)

  function Record(spell: Spelling, fields: seq<Named>): Schema {
    SRecord(Map((f: Named) => Slot(spell(f.name), f.schema), fields))
  }

  function OneOf(spell: Spelling, names: seq<Name>): Schema {
    SChoice(Map(spell, names))
  }

  function PinFields(spell: Spelling): seq<Named> {
    [Named(blockchainId, SText), Named(blockNumber, SUint), Named(blockHash, SText)]
  }

  function Pin(spell: Spelling): Schema {
    Record(spell, PinFields(spell))
  }

  function ProvenanceFields(spell: Spelling): seq<Named> {
    [Named(manifestHash, SNullable(SText)), Named(policyHash, SNullable(SText)), Named(sourceLockCommitSha, SNullable(SText)),
     Named(adapterId, SNullable(SText)), Named(adapterVersion, SNullable(SCount)), Named(ruleVersion, SText)]
  }

  function Provenance(spell: Spelling): Schema {
    Record(spell, ProvenanceFields(spell))
  }

  function FreshnessFields(spell: Spelling): seq<Named> {
    [Named(isFresh, SBool), Named(independentWitnessGroups, SCount), Named(requiredWitnessGroups, SCount)]
  }

  function Freshness(spell: Spelling): Schema {
    Record(spell, FreshnessFields(spell))
  }

  function ScaleFields(spell: Spelling): seq<Named> {
    [Named(tokenMultiplier, SUint), Named(multiplyOnRemote, SBool), Named(homeDecimals, SCount), Named(remoteDecimals, SCount),
     Named(established, SBool)]
  }

  function Scale(spell: Spelling): Schema {
    Record(spell, ScaleFields(spell))
  }

  function RemoteFields(spell: Spelling): seq<Named> {
    [Named(remoteBlockchainId, SText), Named(remoteAddress, SText), Named(transferredBalance, SNullable(SUint)),
     Named(remoteTotalSupply, SNullable(SUint)), Named(scale, Scale(spell)), Named(homePin, SNullable(Pin(spell))),
     Named(remotePin, SNullable(Pin(spell))), Named(fingerprintRecognised, SBool), Named(tokenBehaviourCanonical, SBool),
     Named(routeSingleHop, SBool), Named(initialReserveImbalance, SUint)]
  }

  function Remote(spell: Spelling): Schema {
    Record(spell, RemoteFields(spell))
  }

  function PendingFields(spell: Spelling): seq<Named> {
    [Named(messageKey, SText), Named(direction, OneOf(spell, [homeToRemote, remoteToHome])), Named(amount, SUint),
     Named(ageSeconds, SCount), Named(remoteBlockchainId, SText), Named(remoteAddress, SText)]
  }

  function Pending(spell: Spelling): Schema {
    Record(spell, PendingFields(spell))
  }

  function EffectFields(spell: Spelling): seq<Named> {
    [Named(messageKey, SText), Named(amount, SUint), Named(remoteBlockchainId, SText), Named(remoteAddress, SText),
     Named(hasUniqueAuthorisedSource, SBool), Named(routeMatchesSource, SBool), Named(duplicateEffect, SBool),
     Named(causalSourceFact, SNullable(SText))]
  }

  function Effect(spell: Spelling): Schema {
    Record(spell, EffectFields(spell))
  }

  function EscrowFields(spell: Spelling): seq<Named> {
    [Named(escrowBalance, SNullable(SUint)), Named(homePin, SNullable(Pin(spell))), Named(acceptedCollateralHomeUnits, SUint)]
  }

  function Escrow(spell: Spelling): Schema {
    Record(spell, EscrowFields(spell))
  }

  function ProofInputFields(spell: Spelling): seq<Named> {
    [Named(deploymentId, SText), Named(family, SText), Named(provenance, Provenance(spell)),
     Named(census, OneOf(spell, [completeFromDeploymentBlock, partial, unknown])), Named(cut, OneOf(spell, [closed, open, gap])),
     Named(untrackedRemotes, SArray(SText)), Named(freshness, Freshness(spell)), Named(remotes, SArray(Remote(spell))),
     Named(pending, SArray(Pending(spell))), Named(effects, SArray(Effect(spell))), Named(homeEscrow, Escrow(spell)),
     Named(pendingAgeLimitSeconds, SCount)]
  }

  function ProofInput(spell: Spelling): Schema {
    Record(spell, ProofInputFields(spell))
  }

  // ---- every record names its fields apart

  predicate NamesApart(fields: seq<Named>) {
    forall i, j :: 0 <= i < j < |fields| ==> fields[i].name != fields[j].name
  }

  lemma RecordWellFormed(spell: Spelling, fields: seq<Named>)
    requires GoodSpelling(spell) && NamesApart(fields) && forall i :: 0 <= i < |fields| ==> WellFormed(fields[i].schema)
    ensures WellFormed(Record(spell, fields))
  {
    var slots := Record(spell, fields).slots;
    var keys := SlotKeys(slots);
    assert forall i :: 0 <= i < |slots| ==> slots[i] == Slot(spell(fields[i].name), fields[i].schema);
    assert forall i :: 0 <= i < |keys| ==> keys[i] == spell(fields[i].name);
  }

  lemma ChoiceWellFormed(spell: Spelling, names: seq<Name>)
    requires GoodSpelling(spell)
    ensures WellFormed(OneOf(spell, names))
  {
  }

  lemma PartsWellFormed(spell: Spelling)
    requires GoodSpelling(spell)
    ensures WellFormed(Pin(spell)) && WellFormed(Freshness(spell)) && WellFormed(Scale(spell))
  {
    RecordWellFormed(spell, PinFields(spell));
    RecordWellFormed(spell, FreshnessFields(spell));
    RecordWellFormed(spell, ScaleFields(spell));
  }

  lemma ProvenanceWellFormed(spell: Spelling)
    requires GoodSpelling(spell)
    ensures WellFormed(Provenance(spell))
  {
    RecordWellFormed(spell, ProvenanceFields(spell));
  }

  lemma MessagesWellFormed(spell: Spelling)
    requires GoodSpelling(spell)
    ensures WellFormed(Pending(spell)) && WellFormed(Effect(spell))
  {
    PendingWellFormed(spell);
    RecordWellFormed(spell, EffectFields(spell));
  }

  lemma PendingWellFormed(spell: Spelling)
    requires GoodSpelling(spell)
    ensures WellFormed(Pending(spell))
  {
    ChoiceWellFormed(spell, [homeToRemote, remoteToHome]);
    RecordWellFormed(spell, PendingFields(spell));
  }

  lemma RemoteWellFormed(spell: Spelling)
    requires GoodSpelling(spell) && WellFormed(Pin(spell)) && WellFormed(Scale(spell))
    ensures WellFormed(Remote(spell)) && WellFormed(Escrow(spell))
  {
    RecordWellFormed(spell, RemoteFields(spell));
    RecordWellFormed(spell, EscrowFields(spell));
  }

  lemma ProofInputWellFormed(spell: Spelling)
    requires GoodSpelling(spell)
    ensures WellFormed(ProofInput(spell))
  {
    PartsWellFormed(spell);
    ProvenanceWellFormed(spell);
    MessagesWellFormed(spell);
    RemoteWellFormed(spell);
    ChoiceWellFormed(spell, [completeFromDeploymentBlock, partial, unknown]);
    ChoiceWellFormed(spell, [closed, open, gap]);
    RecordWellFormed(spell, ProofInputFields(spell));
  }

  /** Every proof input with uint256 amounts, safe counts and normalised text survives encoding and decoding. */
  lemma ProofInputRoundTrip(nfc: Nfc, spell: Spelling, v: Val)
    requires IsNfc(nfc) && GoodSpelling(spell) && Fits(nfc, ProofInput(spell), v)
    ensures Encode(nfc, v).Some? && Decode(nfc, ProofInput(spell), Encode(nfc, v).value) == Some(v)
  {
    ProofInputWellFormed(spell);
    DecodeEncode(nfc, ProofInput(spell), v);
  }
}
