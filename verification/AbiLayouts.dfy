// Exactly which data the two dynamic decoders accept:
// the offsets they follow, the words those must lead to, and how far that is from the pinned layout.
module AbiLayouts {
  import opened Collections
  import opened Abi
  import opened AbiMessages
  import RouteAssessment

  /** The word `w` sits at byte `at`. */
  predicate HasWord(hex: Hex, at: nat, w: Hex) {
    |w| == 64 && 2 * at + 64 <= |hex| && hex[2 * at..2 * at + 64] == w
  }

  /** The number `n` is written at byte `at` and is a whole count of words. */
  predicate HasOffset(hex: Hex, at: nat, n: nat) {
    n < UINT_LIMIT && n % 32 == 0 && HasWord(hex, at, Word(n))
  }

  lemma WordIsThere(hex: Hex, index: nat, w: Hex)
    ensures WordAt(hex, index) == Ok(w) <==> HasWord(hex, 32 * index, w)
  {
    assert 2 * (32 * index) == 64 * index;
  }

  lemma WordExact(w: Hex, n: nat)
    requires |w| == 64
    ensures Value(w) == n <==> n < UINT_LIMIT && w == Word(n)
  {
    WordOfValue(w);
    if n < UINT_LIMIT {
      WordValue(n);
    }
  }

  lemma OffsetExact(hex: Hex, index: nat, limit: nat, n: nat)
    ensures WordAt(hex, index).Ok? && Position(WordAt(hex, index).value, limit, true) == Ok(n)
            <==> HasOffset(hex, 32 * index, n) && n <= limit
  {
    WordIsThere(hex, index, Word(n));
    if WordAt(hex, index).Ok? {
      var w := WordAt(hex, index).value;
      WordIsThere(hex, index, w);
      WordExact(w, n);
    }
  }

  lemma AddressExact(hex: Hex, index: nat, a: Hex)
    ensures AddressAt(hex, index) == Ok(a) <==> |a| == 40 && HasWord(hex, 32 * index, AddressWord(a))
  {
    if AddressAt(hex, index).Ok? {
      var w := WordAt(hex, index).value;
      WordIsThere(hex, index, w);
      AddressRead(w);
    }
    if |a| == 40 {
      WordIsThere(hex, index, AddressWord(a));
      AddressReads(a);
    }
  }

  lemma SliceOfTail(hex: Hex, a: nat, i: nat, j: nat)
    requires a <= |hex| && i <= j && a + j <= |hex|
    ensures hex[a..][i..j] == hex[a + i..a + j]
  {
  }

  lemma SliceInTail(hex: Hex, a: nat, i: nat, e: Hex)
    requires a <= |hex|
    ensures i + |e| <= |hex[a..]| && hex[a..][i..i + |e|] == e <==> a + i + |e| <= |hex| && hex[a + i..a + i + |e|] == e
  {
    if a + i + |e| <= |hex| {
      SliceOfTail(hex, a, i, i + |e|);
    }
  }

  lemma WordInTail(hex: Hex, tuple: nat, at: nat, w: Hex)
    requires 2 * tuple <= |hex|
    ensures HasWord(From(hex, tuple), at, w) <==> HasWord(hex, tuple + at, w)
  {
    if 2 * (tuple + at) + 64 <= |hex| {
      SliceOfTail(hex, 2 * tuple, 2 * at, 2 * at + 64);
    }
  }

  lemma BytesInTail(hex: Hex, tuple: nat, at: nat, p: Hex)
    requires 2 * tuple <= |hex|
    ensures EncodedAt(From(hex, tuple), at, p) <==> EncodedAt(hex, tuple + at, p)
  {
    if IsBytes(p) {
      var e := EncodeBytes(p);
      SliceInTail(hex, 2 * tuple, 2 * at, e);
      assert 2 * (tuple + at) == 2 * tuple + 2 * at;
    }
  }

  // ---- TransferrerMessage

  /** A struct of type `t` whose payload offset is `at`. */
  predicate StructAt(hex: Hex, tuple: nat, at: nat, t: MessageType, payload: Hex) {
    && HasWord(hex, tuple, Word(IndexOf(t)))
    && HasOffset(hex, tuple + 32, at)
    && EncodedAt(hex, tuple + at, payload)
  }

  lemma StructInTail(hex: Hex, tuple: nat, at: nat, t: MessageType, payload: Hex)
    requires 2 * tuple <= |hex|
    ensures StructAt(From(hex, tuple), 0, at, t, payload) <==> StructAt(hex, tuple, at, t, payload)
  {
    WordInTail(hex, tuple, 0, Word(IndexOf(t)));
    WordInTail(hex, tuple, 32, Word(at));
    BytesInTail(hex, tuple, at, payload);
  }

  lemma IndexIsOne(n: nat, t: MessageType)
    ensures n <= 4 && MESSAGE_TYPES[n] == t <==> n == IndexOf(t)
  {
  }

  lemma TypeExact(w: Hex, t: MessageType)
    requires |w| == 64
    ensures Value(w) <= 4 && MESSAGE_TYPES[Value(w)] == t <==> w == Word(IndexOf(t))
  {
    var i := IndexOf(t);
    TypeIndex(t);
    SmallWord(i);
    WordExact(w, i);
    IndexIsOne(Value(w), t);
  }

  lemma StructIsAt(struct: Hex) returns (at: nat)
    requires |struct| % 2 == 0 && DecodeStruct(struct).Ok?
    ensures var s := DecodeStruct(struct).value; StructAt(struct, 0, at, s.0, s.1)
  {
    var s, typeWord, offsetWord := DecodeStruct(struct).value, WordAt(struct, 0).value, WordAt(struct, 1).value;
    at := Value(offsetWord);
    TypeExact(typeWord, s.0);
    WordIsThere(struct, 0, typeWord);
    OffsetExact(struct, 1, |struct| / 2, at);
    DynamicBytesExact(struct, at, s.1);
  }

  lemma StructIsRead(struct: Hex, at: nat, t: MessageType, payload: Hex)
    requires |struct| % 2 == 0 && StructAt(struct, 0, at, t, payload)
    ensures DecodeStruct(struct) == Ok((t, payload))
  {
    var typeWord := Word(IndexOf(t));
    WordIsThere(struct, 0, typeWord);
    TypeExact(typeWord, t);
    OffsetExact(struct, 1, |struct| / 2, at);
    DynamicBytesExact(struct, at, payload);
  }

  /** The data lead, by the two offsets written in them, to a type and a payload. */
  predicate LeadsTo(hex: Hex, tuple: nat, at: nat, t: MessageType, payload: Hex) {
    HasOffset(hex, 0, tuple) && StructAt(hex, tuple, at, t, payload)
  }

  ghost predicate HoldsTransferrer(hex: Hex, x: TransferrerPayload) {
    |hex| >= 4 * 64 && exists tuple: nat, at: nat, t, payload :: LeadsTo(hex, tuple, at, t, payload) && Interpreted(t, payload) == Ok(x)
  }

  lemma TransferrerIsHeld(hex: Hex)
    requires |hex| % 2 == 0 && DecodeTransferrer(hex).Ok?
    ensures HoldsTransferrer(hex, DecodeTransferrer(hex).value)
  {
    var tuple := Value(WordAt(hex, 0).value);
    OffsetExact(hex, 0, |hex| / 2, tuple);
    var struct := From(hex, tuple);
    var at := StructIsAt(struct);
    var s := DecodeStruct(struct).value;
    StructInTail(hex, tuple, at, s.0, s.1);
    assert LeadsTo(hex, tuple, at, s.0, s.1) && Interpreted(s.0, s.1) == DecodeTransferrer(hex);
  }

  lemma TransferrerBy(hex: Hex, tuple: nat, t: MessageType, payload: Hex)
    requires |hex| % 2 == 0 && |hex| >= 4 * 64
    requires WordAt(hex, 0).Ok? && Position(WordAt(hex, 0).value, |hex| / 2, true) == Ok(tuple)
    requires DecodeStruct(From(hex, tuple)) == Ok((t, payload))
    ensures DecodeTransferrer(hex) == Interpreted(t, payload)
  {
  }

  lemma HeldIsRead(hex: Hex, tuple: nat, at: nat, t: MessageType, payload: Hex)
    requires |hex| % 2 == 0 && |hex| >= 4 * 64 && LeadsTo(hex, tuple, at, t, payload)
    ensures DecodeTransferrer(hex) == Interpreted(t, payload)
  {
    assert WordAt(hex, 0).Ok? && Position(WordAt(hex, 0).value, |hex| / 2, true) == Ok(tuple) by {
      OffsetExact(hex, 0, |hex| / 2, tuple);
    }
    assert DecodeStruct(From(hex, tuple)) == Ok((t, payload)) by {
      StructInTail(hex, tuple, at, t, payload);
      StructIsRead(From(hex, tuple), at, t, payload);
    }
    TransferrerBy(hex, tuple, t, payload);
  }

  /** A message decodes to `x` exactly when its offsets, wherever they point, lead to an encoding of `x`. */
  lemma TransferrerExact(hex: Hex, x: TransferrerPayload)
    requires |hex| % 2 == 0
    ensures DecodeTransferrer(hex) == Ok(x) <==> HoldsTransferrer(hex, x)
  {
    if DecodeTransferrer(hex) == Ok(x) {
      TransferrerIsHeld(hex);
    }
    if HoldsTransferrer(hex, x) {
      var tuple: nat, at: nat, t, payload :| LeadsTo(hex, tuple, at, t, payload) && Interpreted(t, payload) == Ok(x);
      HeldIsRead(hex, tuple, at, t, payload);
    }
  }

  /** The texts that decode to `x`: lower-case whole bytes after `0x`, holding an encoding of `x`. */
  lemma TransferrerMessageExact(message: string, x: TransferrerPayload)
    ensures DecodeTransferrerMessage(message) == Ok(x)
            <==> exists hex: Hex :: message == "0x" + HexText(hex) && |hex| % 2 == 0 && HoldsTransferrer(hex, x)
  {
    if Body(message).Ok? {
      BodyExact(message, Body(message).value);
      TransferrerExact(Body(message).value, x);
    }
    forall hex: Hex | message == "0x" + HexText(hex) && |hex| % 2 == 0 ensures Body(message) == Ok(hex) {
      BodyExact(message, hex);
    }
  }

  lemma FrontWord(hex: Hex, at: nat, w: Hex, rest: Hex)
    requires |w| == 64 && 2 * at <= |hex|
    ensures w + rest <= hex[2 * at..] <==> HasWord(hex, at, w) && rest <= hex[2 * (at + 32)..]
  {
    var s := hex[2 * at..];
    if |s| >= 64 {
      assert s == s[..64] + s[64..];
      assert s[..64] == hex[2 * at..2 * at + 64] && s[64..] == hex[2 * (at + 32)..];
    }
  }

  lemma FrontBytes(hex: Hex, at: nat, p: Hex)
    requires IsBytes(p) && 2 * at <= |hex|
    ensures EncodeBytes(p) <= hex[2 * at..] <==> EncodedAt(hex, at, p)
  {
    var e := EncodeBytes(p);
    if 2 * at + |e| <= |hex| {
      SliceOfTail(hex, 2 * at, 0, |e|);
    }
  }

  /** Three words and a `bytes` value, from the front. */
  lemma FrontIs(hex: Hex, a: Hex, b: Hex, c: Hex, p: Hex)
    requires |a| == 64 && |b| == 64 && |c| == 64 && IsBytes(p)
    ensures a + (b + c + EncodeBytes(p)) <= hex <==> HasWord(hex, 0, a) && HasWord(hex, 32, b) && HasWord(hex, 64, c) && EncodedAt(hex, 96, p)
  {
    var e := EncodeBytes(p);
    Assoc(b, c, e);
    assert hex[2 * 0..] == hex;
    FrontWord(hex, 0, a, b + (c + e));
    if |hex| >= 64 {
      FrontWord(hex, 32, b, c + e);
    }
    if |hex| >= 128 {
      FrontWord(hex, 64, c, e);
    }
    if |hex| >= 192 {
      FrontBytes(hex, 96, p);
    }
  }

  /** The pinned layout is the one with offsets 32 and 64. */
  lemma PinnedLayout(hex: Hex, t: MessageType, payload: Hex)
    requires IsBytes(payload)
    ensures EncodeTransferrer(t, payload) <= hex <==> LeadsTo(hex, 32, 64, t, payload)
  {
    SmallWord(32);
    SmallWord(64);
    FrontIs(hex, Word(32), Word(IndexOf(t)), Word(64), payload);
  }

  lemma OffsetIsOne(hex: Hex, at: nat, n: nat, m: nat)
    requires HasOffset(hex, at, n) && HasOffset(hex, at, m)
    ensures n == m
  {
    WordValue(n);
    WordValue(m);
  }

  /** Of the data that are accepted, those in the pinned layout are the ones whose offsets are 32 and 64. */
  lemma PinnedIffStandardOffsets(hex: Hex, tuple: nat, at: nat, t: MessageType, payload: Hex)
    requires LeadsTo(hex, tuple, at, t, payload)
    ensures EncodeTransferrer(t, payload) <= hex <==> tuple == 32 && at == 64
  {
    PinnedLayout(hex, t, payload);
    if LeadsTo(hex, 32, 64, t, payload) {
      OffsetIsOne(hex, 0, tuple, 32);
      OffsetIsOne(hex, tuple + 32, at, 64);
    }
  }

  /** What a message holds from its struct on. */
  function StructOf(t: MessageType, payload: Hex): Hex
    requires |payload| % 2 == 0
  {
    Word(IndexOf(t)) + Word(64) + EncodeBytes(payload)
  }

  lemma StructEncoded(t: MessageType, payload: Hex, extra: Hex)
    requires IsBytes(payload)
    ensures StructAt(StructOf(t, payload) + extra, 0, 64, t, payload)
  {
    var hex := Word(32) + (StructOf(t, payload) + extra);
    Assoc(Word(32), StructOf(t, payload), extra);
    PinnedLayout(hex, t, payload);
    assert hex[2 * 32..] == StructOf(t, payload) + extra;
    StructInTail(hex, 32, 64, t, payload);
  }

  lemma MovedStructLeads(t: MessageType, payload: Hex, tuple: nat, junk: Hex, tail: Hex)
    requires tuple % 32 == 0 && tuple < UINT_LIMIT && 64 + |junk| == 2 * tuple && StructAt(tail, 0, 64, t, payload)
    ensures LeadsTo(Word(tuple) + junk + tail, tuple, 64, t, payload)
  {
    var hex := Word(tuple) + junk + tail;
    assert hex[2 * tuple..] == tail;
    StructInTail(hex, tuple, 64, t, payload);
    assert hex[2 * 0..2 * 0 + 64] == Word(tuple);
  }

  lemma WordsEven(n: nat)
    requires n % 64 == 0
    ensures n % 2 == 0
  {
    var k := n / 64;
    assert n == 64 * k;
    Doubled(32 * k);
  }

  lemma Doubled(k: nat)
    ensures 2 * k % 2 == 0
  {
  }

  lemma SumEven(m: nat, n: nat)
    requires m % 2 == 0 && n % 2 == 0
    ensures (m + n) % 2 == 0
  {
  }

  lemma StructEven(t: MessageType, payload: Hex)
    requires IsBytes(payload)
    ensures |StructOf(t, payload)| >= 192 && |StructOf(t, payload)| % 2 == 0
  {
    EncodedLength(payload);
    WordsEven(|EncodeBytes(payload)|);
    assert |StructOf(t, payload)| == 128 + |EncodeBytes(payload)|;
    SumEven(128, |EncodeBytes(payload)|);
  }

  lemma LengthEven(k: nat, m: nat, n: nat)
    requires m % 2 == 0 && n % 2 == 0
    ensures (2 * k + m + n) % 2 == 0
  {
    SumEven(2 * k, m);
    SumEven(2 * k + m, n);
  }

  lemma MovedDecodes(hex: Hex, tuple: nat, t: MessageType, payload: Hex)
    requires |hex| % 2 == 0 && |hex| >= 4 * 64 && LeadsTo(hex, tuple, 64, t, payload)
    ensures DecodeTransferrer(hex) == Interpreted(t, payload)
    ensures tuple != 32 ==> !(EncodeTransferrer(t, payload) <= hex)
  {
    HeldIsRead(hex, tuple, 64, t, payload);
    PinnedIffStandardOffsets(hex, tuple, 64, t, payload);
  }

  lemma MovedStructIsEven(t: MessageType, payload: Hex, tuple: nat, junk: Hex, extra: Hex)
    requires IsBytes(payload) && |extra| % 2 == 0 && 64 + |junk| == 2 * tuple
    ensures var hex := Word(tuple) + junk + (StructOf(t, payload) + extra); |hex| >= 4 * 64 && |hex| % 2 == 0
  {
    StructEven(t, payload);
    LengthEven(tuple, |StructOf(t, payload)|, |extra|);
    assert |Word(tuple) + junk + (StructOf(t, payload) + extra)| == 2 * tuple + |StructOf(t, payload)| + |extra|;
  }

  /** Words nobody encodes may stand before the struct: the decoder follows the offset and answers the same. */
  lemma MovedStructDecodes(t: MessageType, payload: Hex, tuple: nat, junk: Hex, extra: Hex)
    requires IsBytes(payload) && |extra| % 2 == 0
    requires tuple % 32 == 0 && tuple < UINT_LIMIT && 64 + |junk| == 2 * tuple
    ensures var hex := Word(tuple) + junk + (StructOf(t, payload) + extra);
            && |hex| % 2 == 0 && DecodeTransferrer(hex) == Interpreted(t, payload)
            && (junk != [] ==> !(EncodeTransferrer(t, payload) <= hex))
  {
    MovedStructIsEven(t, payload, tuple, junk, extra);
    StructEncoded(t, payload, extra);
    MovedStructLeads(t, payload, tuple, junk, StructOf(t, payload) + extra);
    MovedDecodes(Word(tuple) + junk + (StructOf(t, payload) + extra), tuple, t, payload);
  }

  // ---- the delivered message inside ReceiveCrossChainMessage

  /** An aligned offset that stays inside the data. */
  ghost predicate HasInnerOffset(hex: Hex, tuple: nat, at: nat) {
    exists n: nat :: HasOffset(hex, at, n) && 2 * (tuple + n) <= |hex|
  }

  /** The struct's three offsets, the last leading to the message. */
  ghost predicate HasMessage(hex: Hex, tuple: nat, messageAt: nat, message: Hex) {
    && HasInnerOffset(hex, tuple, tuple + 160) && HasInnerOffset(hex, tuple, tuple + 192)
    && HasOffset(hex, tuple + 224, messageAt) && EncodedAt(hex, tuple + messageAt, message)
  }

  /** The struct at `tuple` carries the fields of `r`, its message behind the offset `messageAt`. */
  ghost predicate ReceivedAt(hex: Hex, tuple: nat, messageAt: nat, r: Received) {
    && |r.origin| == 40 && HasWord(hex, tuple + 32, AddressWord(r.origin))
    && HasWord(hex, tuple + 64, r.destinationBlockchainId)
    && |r.destination| == 40 && HasWord(hex, tuple + 96, AddressWord(r.destination))
    && HasMessage(hex, tuple, messageAt, r.message)
  }

  /** The reward redeemer's word is an address. */
  predicate StartsWithAddress(hex: Hex) {
    |hex| >= 64 && AllZero(hex[..24])
  }

  lemma StartExact(hex: Hex)
    ensures AddressAt(hex, 0).Ok? <==> StartsWithAddress(hex)
  {
    if |hex| >= 64 {
      assert hex[0..64][..24] == hex[..24];
    }
  }

  ghost predicate HoldsReceived(hex: Hex, r: Received) {
    && StartsWithAddress(hex)
    && exists tuple: nat, messageAt: nat :: HasOffset(hex, 32, tuple) && ReceivedAt(hex, tuple, messageAt, r)
  }

  /** The field words, read through the data as a whole. */
  lemma FieldsExact(hex: Hex, tuple: nat, message: Hex, r: Received)
    requires tuple % 32 == 0
    ensures DecodeFields(hex, tuple / 32, message) == Ok(r)
            <==> && |r.origin| == 40 && HasWord(hex, tuple + 32, AddressWord(r.origin))
                 && HasWord(hex, tuple + 64, r.destinationBlockchainId)
                 && |r.destination| == 40 && HasWord(hex, tuple + 96, AddressWord(r.destination))
                 && r.message == message
  {
    var at := tuple / 32;
    assert 32 * (at + 1) == tuple + 32 && 32 * (at + 2) == tuple + 64 && 32 * (at + 3) == tuple + 96;
    AddressExact(hex, at + 1, r.origin);
    WordIsThere(hex, at + 2, r.destinationBlockchainId);
    AddressExact(hex, at + 3, r.destination);
  }

  lemma InnerOffsetExact(struct: Hex, index: nat)
    ensures WordAt(struct, index).Ok? && Position(WordAt(struct, index).value, |struct| / 2, true).Ok?
            <==> HasInnerOffset(struct, 0, 32 * index)
  {
    if WordAt(struct, index).Ok? {
      OffsetExact(struct, index, |struct| / 2, Value(WordAt(struct, index).value));
    }
    if HasInnerOffset(struct, 0, 32 * index) {
      var n: nat :| HasOffset(struct, 32 * index, n) && 2 * (0 + n) <= |struct|;
      OffsetExact(struct, index, |struct| / 2, n);
    }
  }

  lemma MessageOffsetExact(struct: Hex, messageAt: nat)
    ensures MessageOffset(struct) == Ok(messageAt)
            <==> && HasInnerOffset(struct, 0, 160) && HasInnerOffset(struct, 0, 192)
                 && HasOffset(struct, 224, messageAt) && 2 * messageAt <= |struct|
  {
    InnerOffsetExact(struct, 5);
    InnerOffsetExact(struct, 6);
    OffsetExact(struct, 7, |struct| / 2, messageAt);
  }

  lemma InnerOffsetInTail(hex: Hex, tuple: nat, at: nat)
    requires 2 * tuple <= |hex|
    ensures HasInnerOffset(From(hex, tuple), 0, at) <==> HasInnerOffset(hex, tuple, tuple + at)
  {
    var struct, from := From(hex, tuple), tuple + at;
    if HasInnerOffset(struct, 0, at) {
      var n: nat :| HasOffset(struct, at, n) && 2 * (0 + n) <= |struct|;
      WordInTail(hex, tuple, at, Word(n));
      assert HasOffset(hex, from, n);
    }
    if HasInnerOffset(hex, tuple, from) {
      var n: nat :| HasOffset(hex, from, n) && 2 * (tuple + n) <= |hex|;
      WordInTail(hex, tuple, at, Word(n));
      assert HasOffset(struct, at, n);
    }
  }

  lemma OffsetsInTail(hex: Hex, tuple: nat, messageAt: nat)
    requires 2 * tuple <= |hex|
    ensures MessageOffset(From(hex, tuple)) == Ok(messageAt)
            <==> && HasInnerOffset(hex, tuple, tuple + 160) && HasInnerOffset(hex, tuple, tuple + 192)
                 && HasOffset(hex, tuple + 224, messageAt) && 2 * (tuple + messageAt) <= |hex|
  {
    MessageOffsetExact(From(hex, tuple), messageAt);
    InnerOffsetInTail(hex, tuple, 160);
    InnerOffsetInTail(hex, tuple, 192);
    WordInTail(hex, tuple, 224, Word(messageAt));
  }

  lemma MessageInTail(hex: Hex, tuple: nat, messageAt: nat, message: Hex)
    requires |hex| % 2 == 0 && 2 * tuple <= |hex|
    ensures HasMessage(hex, tuple, messageAt, message)
            <==> MessageOffset(From(hex, tuple)) == Ok(messageAt) && DynamicBytes(From(hex, tuple), messageAt) == Ok(message)
  {
    OffsetsInTail(hex, tuple, messageAt);
    DynamicBytesExact(From(hex, tuple), messageAt, message);
    BytesInTail(hex, tuple, messageAt, message);
    if EncodedAt(hex, tuple + messageAt, message) {
      assert 2 * (tuple + messageAt) <= |hex|;
    }
  }

  /** One choice of offsets at a time. */
  lemma ReceivedOnce(hex: Hex, tuple: nat, messageAt: nat, r: Received)
    requires |hex| % 2 == 0 && 2 * tuple <= |hex| && tuple % 32 == 0
    ensures ReceivedAt(hex, tuple, messageAt, r)
            <==> && MessageOffset(From(hex, tuple)) == Ok(messageAt)
                 && DynamicBytes(From(hex, tuple), messageAt) == Ok(r.message)
                 && DecodeFields(hex, tuple / 32, r.message) == Ok(r)
  {
    FieldsExact(hex, tuple, r.message, r);
    MessageInTail(hex, tuple, messageAt, r.message);
  }

  lemma TupleExact(hex: Hex, tuple: nat)
    ensures TupleOffset(hex) == Ok(tuple)
            <==> StartsWithAddress(hex) && HasOffset(hex, 32, tuple) && 2 * tuple <= |hex|
  {
    OffsetExact(hex, 1, |hex| / 2, tuple);
    StartExact(hex);
  }

  /** A delivery decodes to `r` exactly when its offsets, wherever they point, lead to the fields of `r`. */
  lemma ReceivedExact(hex: Hex, r: Received)
    requires |hex| % 2 == 0
    ensures DecodeReceived(hex) == Ok(r) <==> HoldsReceived(hex, r)
  {
    if DecodeReceived(hex) == Ok(r) {
      var tuple := TupleOffset(hex).value;
      var messageAt := MessageOffset(From(hex, tuple)).value;
      TupleExact(hex, tuple);
      ReceivedOnce(hex, tuple, messageAt, r);
      assert HasOffset(hex, 32, tuple) && ReceivedAt(hex, tuple, messageAt, r);
    }
    if HoldsReceived(hex, r) {
      var tuple: nat, messageAt: nat :| HasOffset(hex, 32, tuple) && ReceivedAt(hex, tuple, messageAt, r);
      TupleExact(hex, tuple);
      ReceivedOnce(hex, tuple, messageAt, r);
    }
  }
}
