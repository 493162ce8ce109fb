// Messages read with the strict ABI reader:
// what their standard encoding decodes to.
module AbiMessages {
  import opened Collections
  import opened Abi
  import RouteAssessment

  type MessageType = RouteAssessment.MessageType

  // ---- TransferrerMessage

  const MESSAGE_TYPES := [RouteAssessment.REGISTER_REMOTE, RouteAssessment.SINGLE_HOP_SEND, RouteAssessment.SINGLE_HOP_CALL, RouteAssessment.MULTI_HOP_SEND, RouteAssessment.MULTI_HOP_CALL]

  datatype SingleHop = SingleHop(recipient: Hex, amount: nat)

  datatype TransferrerPayload = TransferrerPayload(messageType: MessageType, singleHopSend: Option<SingleHop>)

  function From(hex: Hex, tuple: nat): (r: Hex)
    ensures |hex| % 2 == 0 ==> |r| % 2 == 0
  {
    if 2 * tuple <= |hex| then hex[2 * tuple..] else []
  }

  function DecodeSingleHop(payload: Hex): Read<SingleHop> {
    if |payload| != 128 then Refused
    else
      var first :- WordAt(payload, 0);
      var recipient :- AddressOf(first);
      var second :- WordAt(payload, 1);
      Ok(SingleHop(recipient, Value(second)))
  }

  /** The struct's type and payload, once its start is known. */
  function DecodeStruct(struct: Hex): Read<(MessageType, Hex)>
    requires |struct| % 2 == 0
  {
    var typeWord :- WordAt(struct, 0);
    if Value(typeWord) > 4 then Refused
    else
      var offsetWord :- WordAt(struct, 1);
      var at :- Position(offsetWord, |struct| / 2, true);
      var payload :- DynamicBytes(struct, at);
      Ok((MESSAGE_TYPES[Value(typeWord)], payload))
  }

  function DecodeTransferrer(hex: Hex): Read<TransferrerPayload>
    requires |hex| % 2 == 0
  {
    if |hex| < 4 * 64 then Refused
    else
      var first :- WordAt(hex, 0);
      var tuple :- Position(first, |hex| / 2, true);
      var struct :- DecodeStruct(From(hex, tuple));
      if struct.0 != RouteAssessment.SINGLE_HOP_SEND then Ok(TransferrerPayload(struct.0, None))
      else
        var hop :- DecodeSingleHop(struct.1);
        Ok(TransferrerPayload(struct.0, Some(hop)))
  }

  function DecodeTransferrerMessage(message: string): Read<TransferrerPayload> {
    var hex :- Body(message);
    BodyExact(message, hex);
    DecodeTransferrer(hex)
  }

  // ---- its standard encoding

  function IndexOf(t: MessageType): nat {
    match t
    case REGISTER_REMOTE => 0
    case SINGLE_HOP_SEND => 1
    case SINGLE_HOP_CALL => 2
    case MULTI_HOP_SEND => 3
    case MULTI_HOP_CALL => 4
  }

  function AddressWord(a: Hex): Hex
    requires |a| == 40
  {
    Zeros(24) + a
  }

  function EncodeSingleHop(h: SingleHop): Hex
    requires |h.recipient| == 40
  {
    AddressWord(h.recipient) + Word(h.amount)
  }

  /** `abi.encode(TransferrerMessage)`: the offset of the struct, its type, the offset of the payload, the payload. */
  function EncodeTransferrer(t: MessageType, payload: Hex): Hex
    requires |payload| % 2 == 0
  {
    Word(32) + (Word(IndexOf(t)) + Word(64) + EncodeBytes(payload))
  }

  lemma {:induction false} PowGrows(j: nat, k: nat)
    requires j <= k
    ensures Pow16(j) <= Pow16(k)
    decreases k
  {
    if j < k {
      PowGrows(j, k - 1);
    }
  }

  lemma SmallWord(n: nat)
    requires n <= 1024
    ensures n < UINT_LIMIT && Value(Word(n)) == n
  {
    assert Pow16(3) == 16 * (16 * 16) by {
      assert Pow16(1) == 16 * Pow16(0) && Pow16(2) == 16 * Pow16(1);
    }
    PowGrows(3, 64);
    WordValue(n);
  }

  lemma FirstWord(w: Hex, rest: Hex)
    requires |w| == 64
    ensures WordAt(w + rest, 0) == Ok(w) && From(w + rest, 32) == rest
  {
  }

  lemma NextWord(w: Hex, rest: Hex, i: nat)
    requires |w| == 64
    ensures WordAt(w + rest, i + 1) == WordAt(rest, i)
  {
    if 64 * i + 64 <= |rest| {
      assert (w + rest)[64 * (i + 1)..64 * (i + 1) + 64] == rest[64 * i..64 * i + 64];
    }
  }

  lemma StructFrom(struct: Hex, typeWord: Hex, offsetWord: Hex, payload: Hex)
    requires |struct| % 2 == 0 && |struct| >= 128
    requires WordAt(struct, 0) == Ok(typeWord) && WordAt(struct, 1) == Ok(offsetWord)
    requires Value(typeWord) <= 4 && Value(offsetWord) == 64 && DynamicBytes(struct, 64) == Ok(payload)
    ensures DecodeStruct(struct) == Ok((MESSAGE_TYPES[Value(typeWord)], payload))
  {
  }

  lemma PayloadReads(typeWord: Hex, offsetWord: Hex, payload: Hex, extra: Hex)
    requires |typeWord| == 64 && |offsetWord| == 64 && IsBytes(payload) && |extra| % 2 == 0
    ensures var struct := typeWord + (offsetWord + (EncodeBytes(payload) + extra));
            |struct| % 2 == 0 && |struct| >= 192 && DynamicBytes(struct, 64) == Ok(payload)
  {
    var before := typeWord + offsetWord;
    assert |before| == 128;
    BytesRoundTrip(before, payload, extra);
    EncodedLength(payload);
    Assoc(before, EncodeBytes(payload), extra);
    Assoc(typeWord, offsetWord, EncodeBytes(payload) + extra);
  }

  lemma StructReads(typeWord: Hex, offsetWord: Hex, payload: Hex, extra: Hex)
    requires |typeWord| == 64 && |offsetWord| == 64 && Value(typeWord) <= 4 && Value(offsetWord) == 64
    requires IsBytes(payload) && |extra| % 2 == 0
    ensures var struct := typeWord + (offsetWord + (EncodeBytes(payload) + extra));
            |struct| % 2 == 0 && |struct| >= 192 && DecodeStruct(struct) == Ok((MESSAGE_TYPES[Value(typeWord)], payload))
  {
    var rest := EncodeBytes(payload) + extra;
    PayloadReads(typeWord, offsetWord, payload, extra);
    FirstWord(typeWord, offsetWord + rest);
    NextWord(typeWord, offsetWord + rest, 0);
    FirstWord(offsetWord, rest);
    StructFrom(typeWord + (offsetWord + rest), typeWord, offsetWord, payload);
  }

  function Interpreted(t: MessageType, payload: Hex): Read<TransferrerPayload> {
    if t != RouteAssessment.SINGLE_HOP_SEND then Ok(TransferrerPayload(t, None))
    else
      var hop :- DecodeSingleHop(payload);
      Ok(TransferrerPayload(t, Some(hop)))
  }

  lemma TransferrerFrom(first: Hex, struct: Hex, t: MessageType, payload: Hex)
    requires |first| == 64 && Value(first) == 32 && |struct| >= 192 && |struct| % 2 == 0
    requires DecodeStruct(struct) == Ok((t, payload))
    ensures |first + struct| % 2 == 0 && DecodeTransferrer(first + struct) == Interpreted(t, payload)
  {
    FirstWord(first, struct);
    assert |first + struct| == 64 + |struct|;
    WordMoreEven(|struct|);
    DecodesBy(first + struct, struct, t, payload);
  }

  lemma WordMoreEven(n: nat)
    requires n % 2 == 0
    ensures (64 + n) % 2 == 0
  {
  }

  lemma DecodesBy(hex: Hex, struct: Hex, t: MessageType, payload: Hex)
    requires |hex| % 2 == 0 && |hex| >= 256 && |struct| % 2 == 0 && WordAt(hex, 0).Ok? && Value(WordAt(hex, 0).value) == 32
    requires From(hex, 32) == struct && DecodeStruct(struct) == Ok((t, payload))
    ensures DecodeTransferrer(hex) == Interpreted(t, payload)
  {
  }

  lemma TypeIndex(t: MessageType)
    ensures IndexOf(t) <= 4 && MESSAGE_TYPES[IndexOf(t)] == t
  {
  }

  /** Decoding undoes the standard encoding for every type and payload; whatever follows the message is ignored. */
  lemma TransferrerRoundTrip(t: MessageType, payload: Hex, extra: Hex)
    requires IsBytes(payload) && |extra| % 2 == 0
    ensures var hex := EncodeTransferrer(t, payload) + extra;
            |hex| % 2 == 0 && DecodeTransferrer(hex) == Interpreted(t, payload)
  {
    SmallWord(32);
    SmallWord(64);
    TypeIndex(t);
    SmallWord(IndexOf(t));
    var first, typeWord, offsetWord := Word(32), Word(IndexOf(t)), Word(64);
    StructReads(typeWord, offsetWord, payload, extra);
    TransferrerFrom(first, typeWord + (offsetWord + (EncodeBytes(payload) + extra)), t, payload);
    Regroup(first, typeWord, offsetWord, EncodeBytes(payload), extra);
  }

  lemma Regroup(a: Hex, b: Hex, c: Hex, d: Hex, e: Hex)
    ensures a + (b + c + d) + e == a + (b + (c + (d + e)))
  {
  }

  lemma SingleHopRead(payload: Hex)
    requires DecodeSingleHop(payload).Ok?
    ensures var h := DecodeSingleHop(payload).value; |h.recipient| == 40 && h.amount < UINT_LIMIT && payload == EncodeSingleHop(h)
  {
    var first, second := payload[..64], payload[64..];
    assert payload == first + second;
    TwoWords(first, second);
    AddressRead(first);
    WordOfValue(second);
  }

  lemma SingleHopReads(h: SingleHop)
    requires |h.recipient| == 40 && h.amount < UINT_LIMIT
    ensures DecodeSingleHop(EncodeSingleHop(h)) == Ok(h)
  {
    var first, second := AddressWord(h.recipient), Word(h.amount);
    AddressReads(h.recipient);
    WordValue(h.amount);
    TwoWords(first, second);
  }

  lemma TwoWords(a: Hex, b: Hex)
    requires |a| == 64 && |b| == 64
    ensures WordAt(a + b, 0) == Ok(a) && WordAt(a + b, 1) == Ok(b)
  {
    FirstWord(a, b);
    NextWord(a, b, 0);
    assert b + [] == b;
    FirstWord(b, []);
  }

  lemma AddressRead(w: Hex)
    requires |w| == 64 && AddressOf(w).Ok?
    ensures |AddressOf(w).value| == 40 && w == AddressWord(AddressOf(w).value)
  {
    ZeroIsZeros(w[..24]);
    assert w == w[..24] + w[24..];
  }

  /** The single-hop payload is read exactly from its own encoding. */
  lemma SingleHopExact(payload: Hex, h: SingleHop)
    ensures DecodeSingleHop(payload) == Ok(h) <==> |h.recipient| == 40 && h.amount < UINT_LIMIT && payload == EncodeSingleHop(h)
  {
    if DecodeSingleHop(payload).Ok? {
      SingleHopRead(payload);
    }
    if |h.recipient| == 40 && h.amount < UINT_LIMIT {
      SingleHopReads(h);
    }
  }

  lemma AddressReads(a: Hex)
    requires |a| == 40
    ensures AddressOf(AddressWord(a)) == Ok(a)
  {
    var w := AddressWord(a);
    assert w[..24] == Zeros(24) && w[24..] == a;
  }

  /** A single-hop send survives the trip with its recipient and amount. */
  lemma SingleHopRoundTrip(h: SingleHop, extra: Hex)
    requires |h.recipient| == 40 && h.amount < UINT_LIMIT && |extra| % 2 == 0
    ensures |EncodeSingleHop(h)| % 2 == 0 && |EncodeTransferrer(RouteAssessment.SINGLE_HOP_SEND, EncodeSingleHop(h)) + extra| % 2 == 0
    ensures DecodeTransferrer(EncodeTransferrer(RouteAssessment.SINGLE_HOP_SEND, EncodeSingleHop(h)) + extra) == Ok(TransferrerPayload(RouteAssessment.SINGLE_HOP_SEND, Some(h)))
  {
    var payload := EncodeSingleHop(h);
    SingleHopExact(payload, h);
    SmallWord(64);
    TransferrerRoundTrip(RouteAssessment.SINGLE_HOP_SEND, payload, extra);
  }

  // ---- RemoteTokenTransferrerSettings

  datatype Settings = Settings(registered: bool, collateralNeeded: nat, tokenMultiplier: nat, multiplyOnRemote: bool)

  function BoolOf(w: Hex): Read<bool>
    requires |w| == 64
  {
    if AllZero(w) then Ok(false)
    else if AllZero(w[..63]) && w[63] == 1 then Ok(true)
    else Refused
  }

  function DecodeSettings(hex: Hex): Read<Settings> {
    if |hex| != 4 * 64 then Refused
    else
      var w0 :- WordAt(hex, 0);
      var registered :- BoolOf(w0);
      var w1 :- WordAt(hex, 1);
      var w2 :- WordAt(hex, 2);
      var w3 :- WordAt(hex, 3);
      var multiplyOnRemote :- BoolOf(w3);
      Ok(Settings(registered, Value(w1), Value(w2), multiplyOnRemote))
  }

  function BoolWord(b: bool): Hex {
    Zeros(63) + [if b then 1 else 0]
  }

  function EncodeSettings(s: Settings): Hex {
    BoolWord(s.registered) + (Word(s.collateralNeeded) + (Word(s.tokenMultiplier) + BoolWord(s.multiplyOnRemote)))
  }

  lemma BoolExact(w: Hex, b: bool)
    requires |w| == 64
    ensures BoolOf(w) == Ok(b) <==> w == BoolWord(b)
  {
    assert w == w[..63] + [w[63]];
    if AllZero(w[..63]) {
      ZeroIsZeros(w[..63]);
    }
    if w == BoolWord(b) {
      assert w[..63] == Zeros(63);
    }
  }

  lemma FourWords(a: Hex, b: Hex, c: Hex, d: Hex)
    requires |a| == 64 && |b| == 64 && |c| == 64 && |d| == 64
    ensures var hex := a + (b + (c + d)); WordAt(hex, 0) == Ok(a) && WordAt(hex, 1) == Ok(b) && WordAt(hex, 2) == Ok(c) && WordAt(hex, 3) == Ok(d)
  {
    FirstWord(a, b + (c + d));
    NextWord(a, b + (c + d), 0);
    NextWord(a, b + (c + d), 1);
    NextWord(a, b + (c + d), 2);
    FirstWord(b, c + d);
    NextWord(b, c + d, 0);
    NextWord(b, c + d, 1);
    FirstWord(c, d);
    NextWord(c, d, 0);
    assert d + [] == d;
    FirstWord(d, []);
  }

  predicate InRange(s: Settings) {
    s.collateralNeeded < UINT_LIMIT && s.tokenMultiplier < UINT_LIMIT
  }

  lemma SettingsFrom(a: Hex, b: Hex, c: Hex, d: Hex, s: Settings)
    requires |a| == 64 && |b| == 64 && |c| == 64 && |d| == 64
    requires BoolOf(a) == Ok(s.registered) && BoolOf(d) == Ok(s.multiplyOnRemote)
    requires Value(b) == s.collateralNeeded && Value(c) == s.tokenMultiplier
    ensures DecodeSettings(a + (b + (c + d))) == Ok(s)
  {
    FourWords(a, b, c, d);
  }

  lemma SettingsRead(hex: Hex)
    requires DecodeSettings(hex).Ok?
    ensures var s := DecodeSettings(hex).value; InRange(s) && hex == EncodeSettings(s)
  {
    var s := DecodeSettings(hex).value;
    var a, b, c, d := hex[..64], hex[64..128], hex[128..192], hex[192..];
    assert hex == a + (b + (c + d));
    FourWords(a, b, c, d);
    BoolExact(a, s.registered);
    BoolExact(d, s.multiplyOnRemote);
    WordOfValue(b);
    WordOfValue(c);
  }

  /** The settings decode exactly from their own encoding: nothing else is accepted, and nothing is lost. */
  lemma SettingsExact(hex: Hex, s: Settings)
    ensures DecodeSettings(hex) == Ok(s) <==> InRange(s) && hex == EncodeSettings(s)
  {
    if DecodeSettings(hex).Ok? {
      SettingsRead(hex);
    }
    if InRange(s) {
      BoolExact(BoolWord(s.registered), s.registered);
      BoolExact(BoolWord(s.multiplyOnRemote), s.multiplyOnRemote);
      WordValue(s.collateralNeeded);
      WordValue(s.tokenMultiplier);
      SettingsFrom(BoolWord(s.registered), Word(s.collateralNeeded), Word(s.tokenMultiplier), BoolWord(s.multiplyOnRemote), s);
    }
  }

  // ---- the delivered message inside ReceiveCrossChainMessage

  datatype Received = Received(origin: Hex, destinationBlockchainId: Hex, destination: Hex, message: Hex)

  /** The struct's three offsets must be in bounds and aligned; the last locates the message. */
  function MessageOffset(struct: Hex): Read<nat> {
    if |struct| < 8 * 64 then Refused
    else
      var w5 :- WordAt(struct, 5);
      var relayersAt :- Position(w5, |struct| / 2, true);
      var w6 :- WordAt(struct, 6);
      var receiptsAt :- Position(w6, |struct| / 2, true);
      var w7 :- WordAt(struct, 7);
      Position(w7, |struct| / 2, true)
  }

  function AddressAt(hex: Hex, index: nat): Read<Hex> {
    var w :- WordAt(hex, index);
    AddressOf(w)
  }

  /** Where the struct starts; the reward redeemer before it is validated and not used. */
  function TupleOffset(hex: Hex): Read<nat> {
    var rewardRedeemer :- AddressAt(hex, 0);
    var w1 :- WordAt(hex, 1);
    Position(w1, |hex| / 2, true)
  }

  function DecodeFields(hex: Hex, at: nat, message: Hex): Read<Received> {
    var origin :- AddressAt(hex, at + 1);
    var chain :- WordAt(hex, at + 2);
    var destination :- AddressAt(hex, at + 3);
    Ok(Received(origin, chain, destination, message))
  }

  function DecodeReceived(hex: Hex): Read<Received>
    requires |hex| % 2 == 0
  {
    var tuple :- TupleOffset(hex);
    var struct := From(hex, tuple);
    var messageAt :- MessageOffset(struct);
    var message :- DynamicBytes(struct, messageAt);
    DecodeFields(hex, tuple / 32, message)
  }

  // ---- its standard encoding

  function Cat(ws: seq<Hex>, rest: Hex): Hex {
    if ws == [] then rest else ws[0] + Cat(ws[1..], rest)
  }

  predicate AreWords(ws: seq<Hex>) {
    forall i :: 0 <= i < |ws| ==> |ws[i]| == 64
  }

  lemma {:induction false} CatWord(ws: seq<Hex>, rest: Hex, i: nat)
    requires AreWords(ws) && i < |ws|
    ensures WordAt(Cat(ws, rest), i) == Ok(ws[i])
  {
    FirstWord(ws[0], Cat(ws[1..], rest));
    if i > 0 {
      CatWord(ws[1..], rest, i - 1);
      NextWord(ws[0], Cat(ws[1..], rest), i - 1);
    }
  }

  lemma {:induction false} CatLength(ws: seq<Hex>, a: Hex)
    requires AreWords(ws)
    ensures |Cat(ws, a)| == 64 * |ws| + |a|
  {
    if ws != [] {
      CatLength(ws[1..], a);
    }
  }

  lemma {:induction false} CatAppend(ws: seq<Hex>, a: Hex, b: Hex)
    ensures Cat(ws, a + b) == Cat(ws, a) + b
  {
    if ws != [] {
      CatAppend(ws[1..], a, b);
      Assoc(ws[0], Cat(ws[1..], a), b);
    }
  }

  datatype Receipt = Receipt(nonce: nat, relayer: Hex)

  datatype TeleporterMessage = TeleporterMessage(
    nonce: nat,
    origin: Hex,
    destinationBlockchainId: Hex,
    destination: Hex,
    requiredGasLimit: nat,
    relayers: seq<Hex>,
    receipts: seq<Receipt>,
    message: Hex)

  predicate WellFormed(m: TeleporterMessage) {
    && |m.origin| == 40 && |m.destinationBlockchainId| == 64 && |m.destination| == 40
    && (forall r :: r in m.relayers ==> |r| == 40)
    && (forall r :: r in m.receipts ==> |r.relayer| == 40)
    && IsBytes(m.message) && MessageStart(m) < UINT_LIMIT
  }

  function ReceiptsStart(m: TeleporterMessage): nat {
    256 + 32 * (1 + |m.relayers|)
  }

  function MessageStart(m: TeleporterMessage): nat {
    ReceiptsStart(m) + 32 * (1 + 2 * |m.receipts|)
  }

  function RelayerWords(rs: seq<Hex>): seq<Hex>
    requires forall r :: r in rs ==> |r| == 40
  {
    if rs == [] then [] else RelayerWords(rs[..|rs| - 1]) + [AddressWord(rs[|rs| - 1])]
  }

  function ReceiptWords(rs: seq<Receipt>): seq<Hex>
    requires forall r :: r in rs ==> |r.relayer| == 40
  {
    if rs == [] then [] else ReceiptWords(rs[..|rs| - 1]) + [Word(rs[|rs| - 1].nonce), AddressWord(rs[|rs| - 1].relayer)]
  }

  function HeadWords(m: TeleporterMessage): seq<Hex>
    requires WellFormed(m)
  {
    [Word(m.nonce), AddressWord(m.origin), m.destinationBlockchainId, AddressWord(m.destination), Word(m.requiredGasLimit),
     Word(256), Word(ReceiptsStart(m)), Word(MessageStart(m))]
  }

  function TailWords(m: TeleporterMessage): seq<Hex>
    requires WellFormed(m)
  {
    [Word(|m.relayers|)] + RelayerWords(m.relayers) + [Word(|m.receipts|)] + ReceiptWords(m.receipts)
  }

  /** The event's data: the reward redeemer, the struct's offset, the struct, and anything after it. */
  function EncodeReceived(rewardRedeemer: Hex, m: TeleporterMessage, extra: Hex): Hex
    requires |rewardRedeemer| == 40 && WellFormed(m)
  {
    AddressWord(rewardRedeemer) + (Word(64) + Struct(HeadWords(m), TailWords(m), m.message, extra))
  }

  lemma {:induction false} RelayersAreWords(rs: seq<Hex>)
    requires forall r :: r in rs ==> |r| == 40
    ensures AreWords(RelayerWords(rs)) && |RelayerWords(rs)| == |rs|
  {
    if rs != [] {
      RelayersAreWords(rs[..|rs| - 1]);
    }
  }

  lemma {:induction false} ReceiptsAreWords(rs: seq<Receipt>)
    requires forall r :: r in rs ==> |r.relayer| == 40
    ensures AreWords(ReceiptWords(rs)) && |ReceiptWords(rs)| == 2 * |rs|
  {
    if rs != [] {
      ReceiptsAreWords(rs[..|rs| - 1]);
    }
  }

  lemma TailAreWords(m: TeleporterMessage)
    requires WellFormed(m)
    ensures AreWords(TailWords(m)) && |TailWords(m)| == 2 + |m.relayers| + 2 * |m.receipts|
  {
    RelayersAreWords(m.relayers);
    ReceiptsAreWords(m.receipts);
    ConcatWords(RelayerWords(m.relayers), ReceiptWords(m.receipts), Word(|m.relayers|), Word(|m.receipts|));
  }

  lemma ConcatWords(a: seq<Hex>, b: seq<Hex>, x: Hex, y: Hex)
    requires AreWords(a) && AreWords(b) && |x| == 64 && |y| == 64
    ensures AreWords([x] + a + [y] + b) && |[x] + a + [y] + b| == 2 + |a| + |b|
  {
  }

  function Struct(head: seq<Hex>, tail: seq<Hex>, message: Hex, extra: Hex): Hex
    requires |message| % 2 == 0
  {
    Cat(head, Cat(tail, EncodeBytes(message) + extra))
  }

  /** Everything before the message is whole words. */
  lemma StructShape(head: seq<Hex>, tail: seq<Hex>, message: Hex, extra: Hex) returns (before: Hex)
    requires AreWords(head) && AreWords(tail) && |message| % 2 == 0
    ensures Struct(head, tail, message, extra) == before + EncodeBytes(message) + extra && |before| == 64 * (|head| + |tail|)
  {
    var rest := EncodeBytes(message) + extra;
    assert [] + rest == rest;
    CatAppend(tail, [], rest);
    CatAppend(head, Cat(tail, []), rest);
    CatLength(tail, []);
    CatLength(head, Cat(tail, []));
    before := Cat(head, Cat(tail, []));
    Assoc(before, EncodeBytes(message), extra);
  }

  lemma StructMessage(head: seq<Hex>, tail: seq<Hex>, message: Hex, extra: Hex)
    requires AreWords(head) && AreWords(tail) && IsBytes(message) && |extra| % 2 == 0
    ensures var struct, at := Struct(head, tail, message, extra), 32 * (|head| + |tail|);
            |struct| % 2 == 0 && |struct| >= 2 * at && DynamicBytes(struct, at) == Ok(message)
  {
    var before := StructShape(head, tail, message, extra);
    BytesRoundTrip(before, message, extra);
    assert |before| / 2 == 32 * (|head| + |tail|);
  }

  lemma OffsetReads(head: seq<Hex>, tail: seq<Hex>, message: Hex, extra: Hex)
    requires AreWords(head) && |head| == 8 && AreWords(tail) && IsBytes(message) && |extra| % 2 == 0
    requires Value(head[7]) == 32 * (|head| + |tail|)
    requires Value(head[5]) <= Value(head[7]) && Value(head[5]) % 32 == 0 && Value(head[6]) <= Value(head[7]) && Value(head[6]) % 32 == 0
    ensures MessageOffset(Struct(head, tail, message, extra)) == Ok(Value(head[7]))
  {
    var rest := Cat(tail, EncodeBytes(message) + extra);
    StructMessage(head, tail, message, extra);
    CatWord(head, rest, 5);
    CatWord(head, rest, 6);
    CatWord(head, rest, 7);
  }

  lemma SkipTwo(a: Hex, b: Hex, struct: Hex, i: nat)
    requires |a| == 64 && |b| == 64
    ensures WordAt(a + (b + struct), i + 2) == WordAt(struct, i)
  {
    NextWord(a, b + struct, i + 1);
    NextWord(b, struct, i);
  }

  lemma FromTwo(a: Hex, b: Hex, struct: Hex)
    requires |a| == 64 && |b| == 64
    ensures From(a + (b + struct), 64) == struct && WordAt(a + (b + struct), 0) == Ok(a) && WordAt(a + (b + struct), 1) == Ok(b)
  {
    assert (a + (b + struct))[128..] == struct;
    FirstWord(a, b + struct);
    NextWord(a, b + struct, 0);
    FirstWord(b, struct);
  }

  lemma TupleReads(a: Hex, b: Hex, struct: Hex)
    requires |a| == 64 && |b| == 64 && AddressOf(a).Ok? && Value(b) == 64
    ensures TupleOffset(a + (b + struct)) == Ok(64)
  {
    FromTwo(a, b, struct);
  }

  lemma FieldsRead(a: Hex, b: Hex, head: seq<Hex>, rest: Hex, r: Received)
    requires |a| == 64 && |b| == 64 && AreWords(head) && |head| == 8
    requires AddressOf(head[1]) == Ok(r.origin) && head[2] == r.destinationBlockchainId && AddressOf(head[3]) == Ok(r.destination)
    ensures DecodeFields(a + (b + Cat(head, rest)), 2, r.message) == Ok(r)
  {
    var struct := Cat(head, rest);
    SkipTwo(a, b, struct, 1);
    SkipTwo(a, b, struct, 2);
    SkipTwo(a, b, struct, 3);
    CatWord(head, rest, 1);
    CatWord(head, rest, 2);
    CatWord(head, rest, 3);
  }

  lemma StaysEven(n: nat)
    requires n % 2 == 0
    ensures (128 + n) % 2 == 0
  {
  }

  lemma Compose(hex: Hex, struct: Hex, at: nat, r: Received)
    requires |hex| % 2 == 0 && |struct| % 2 == 0 && TupleOffset(hex) == Ok(64) && From(hex, 64) == struct
    requires MessageOffset(struct) == Ok(at) && DynamicBytes(struct, at) == Ok(r.message) && DecodeFields(hex, 2, r.message) == Ok(r)
    ensures DecodeReceived(hex) == Ok(r)
  {
  }

  /** Decoding from the words themselves. */
  lemma ReceivedFrom(hex: Hex, a: Hex, b: Hex, head: seq<Hex>, tail: seq<Hex>, r: Received, extra: Hex)
    requires |a| == 64 && |b| == 64 && AddressOf(a).Ok? && Value(b) == 64 && |extra| % 2 == 0
    requires AreWords(head) && |head| == 8 && AreWords(tail) && IsBytes(r.message)
    requires Value(head[7]) == 32 * (|head| + |tail|)
    requires Value(head[5]) <= Value(head[7]) && Value(head[5]) % 32 == 0 && Value(head[6]) <= Value(head[7]) && Value(head[6]) % 32 == 0
    requires AddressOf(head[1]) == Ok(r.origin) && head[2] == r.destinationBlockchainId && AddressOf(head[3]) == Ok(r.destination)
    requires hex == a + (b + Struct(head, tail, r.message, extra))
    ensures |hex| % 2 == 0 && DecodeReceived(hex) == Ok(r)
  {
    var struct, at := Struct(head, tail, r.message, extra), Value(head[7]);
    assert |struct| % 2 == 0 && DynamicBytes(struct, at) == Ok(r.message) by {
      StructMessage(head, tail, r.message, extra);
    }
    assert MessageOffset(struct) == Ok(at) by {
      OffsetReads(head, tail, r.message, extra);
    }
    assert TupleOffset(hex) == Ok(64) && From(hex, 64) == struct by {
      TupleReads(a, b, struct);
      FromTwo(a, b, struct);
    }
    assert DecodeFields(hex, 2, r.message) == Ok(r) by {
      FieldsRead(a, b, head, Cat(tail, EncodeBytes(r.message) + extra), r);
    }
    assert |hex| == 128 + |struct|;
    StaysEven(|struct|);
    Compose(hex, struct, at, r);
  }

  lemma HeadFacts(m: TeleporterMessage)
    requires WellFormed(m)
    ensures var head := HeadWords(m);
            && AreWords(head) && |head| == 8
            && Value(head[5]) == 256 && Value(head[6]) == ReceiptsStart(m) && Value(head[7]) == MessageStart(m)
            && AddressOf(head[1]) == Ok(m.origin) && head[2] == m.destinationBlockchainId && AddressOf(head[3]) == Ok(m.destination)
  {
    SmallWord(256);
    WordValue(ReceiptsStart(m));
    WordValue(MessageStart(m));
    AddressReads(m.origin);
    AddressReads(m.destination);
  }

  lemma StartsAligned(m: TeleporterMessage)
    ensures ReceiptsStart(m) % 32 == 0 && MessageStart(m) == 32 * (8 + (2 + |m.relayers| + 2 * |m.receipts|))
  {
  }

  /** Decoding returns the delivered fields for every relayer list, receipt list and message, whatever follows. */
  lemma ReceivedRoundTrip(redeemer: Hex, m: TeleporterMessage, extra: Hex)
    requires |redeemer| == 40 && WellFormed(m) && |extra| % 2 == 0
    ensures var hex := EncodeReceived(redeemer, m, extra);
            && |hex| % 2 == 0
            && DecodeReceived(hex) == Ok(Received(m.origin, m.destinationBlockchainId, m.destination, m.message))
  {
    TailAreWords(m);
    HeadFacts(m);
    StartsAligned(m);
    SmallWord(64);
    AddressReads(redeemer);
    var r := Received(m.origin, m.destinationBlockchainId, m.destination, m.message);
    ReceivedFrom(EncodeReceived(redeemer, m, extra), AddressWord(redeemer), Word(64), HeadWords(m), TailWords(m), r, extra);
  }
}
