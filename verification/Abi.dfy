/** The strict ABI reader, on hexadecimal digits, and the standard encoding it must accept. */
module Abi {
  import opened Collections

  type Nibble = x: int | 0 <= x < 16

  type Hex = seq<Nibble>

  /** What a read yields; every failure is one refusal. */
  datatype Read<+T> = Ok(value: T) | Refused {
    predicate IsFailure() {
      Refused?
    }

    function PropagateFailure<U>(): Read<U>
      requires IsFailure()
    {
      Refused
    }

    function Extract(): T
      requires !IsFailure()
    {
      value
    }
  }

  // ---- numbers as digits

  function Pow16(k: nat): (r: nat)
    ensures r >= 1
  {
    if k == 0 then 1 else 16 * Pow16(k - 1)
  }

  function Value(w: Hex): nat {
    if w == [] then 0 else 16 * Value(w[..|w| - 1]) + w[|w| - 1]
  }

  function Digits(n: nat, k: nat): (w: Hex)
    ensures |w| == k
  {
    if k == 0 then [] else Digits(n / 16, k - 1) + [n % 16]
  }

  lemma {:induction false} ValueOfDigits(n: nat, k: nat)
    requires n < Pow16(k)
    ensures Value(Digits(n, k)) == n
  {
    if k > 0 {
      ValueOfDigits(n / 16, k - 1);
      assert Digits(n, k)[..k - 1] == Digits(n / 16, k - 1);
    }
  }

  lemma {:induction false} DigitsOfValue(w: Hex)
    ensures Value(w) < Pow16(|w|) && Digits(Value(w), |w|) == w
  {
    if w != [] {
      var front, last := w[..|w| - 1], w[|w| - 1];
      DigitsOfValue(front);
      assert Value(w) / 16 == Value(front) && Value(w) % 16 == last;
      assert w == front + [last];
    }
  }

  const UINT_LIMIT := Pow16(64)

  function Word(n: nat): (w: Hex)
    ensures |w| == 64
  {
    Digits(n, 64)
  }

  lemma WordValue(n: nat)
    requires n < UINT_LIMIT
    ensures Value(Word(n)) == n
  {
    ValueOfDigits(n, 64);
  }

  lemma WordOfValue(w: Hex)
    requires |w| == 64
    ensures Value(w) < UINT_LIMIT && Word(Value(w)) == w
  {
    DigitsOfValue(w);
  }

  function Zeros(k: nat): Hex {
    seq(k, i => 0)
  }

  predicate AllZero(s: Hex) {
    forall i :: 0 <= i < |s| ==> s[i] == 0
  }

  lemma ZeroIsZeros(s: Hex)
    requires AllZero(s)
    ensures s == Zeros(|s|)
  {
  }

  // ---- the text of the digits

  const HEX_CHARS := "0123456789abcdef"

  function HexText(h: Hex): string {
    Map((n: Nibble) => HEX_CHARS[n], h)
  }

  /** The digit a lower-case character stands for. */
  function NibbleOf(c: char): Read<Nibble> {
    if '0' <= c <= '9' then Ok(c as int - '0' as int)
    else if 'a' <= c <= 'f' then Ok(c as int - 'a' as int + 10)
    else Refused
  }

  function NibblesOf(s: string): Read<Hex> {
    if s == [] then Ok([])
    else
      var front :- NibblesOf(s[..|s| - 1]);
      var last :- NibbleOf(s[|s| - 1]);
      Ok(front + [last])
  }

  /** Only `0x` and whole lower-case bytes are accepted. */
  function Body(data: string): Read<Hex> {
    if |data| < 2 || data[..2] != "0x" || |data| % 2 != 0 then Refused else NibblesOf(data[2..])
  }

  lemma {:induction false} NibblesExact(s: string, h: Hex)
    ensures NibblesOf(s) == Ok(h) <==> s == HexText(h)
    decreases |s|
  {
    if s == [] || h == [] {
      assert NibblesOf(s) == Ok([]) ==> s == [];
      assert |HexText(h)| == |h|;
    } else {
      var n, m := |s| - 1, |h| - 1;
      NibblesExact(s[..n], h[..m]);
      assert HexText(h)[..m] == HexText(h[..m]);
      NibbleExact(s[n], h[m]);
      if s == HexText(h) {
        assert s[n] == HEX_CHARS[h[m]];
        assert h == h[..m] + [h[m]];
      }
      if NibblesOf(s) == Ok(h) {
        assert NibblesOf(s[..n]).Ok?;
        var front := NibblesOf(s[..n]).value;
        assert h[..m] == front;
        assert s == s[..n] + [s[n]];
        assert HexText(h) == HexText(h[..m]) + [HEX_CHARS[h[m]]];
      }
    }
  }

  lemma NibbleExact(c: char, n: Nibble)
    ensures NibbleOf(c) == Ok(n) <==> c == HEX_CHARS[n]
  {
  }

  /** Exactly the `0x`-prefixed texts of whole bytes are read, each to its own digits. */
  lemma BodyExact(data: string, h: Hex)
    ensures Body(data) == Ok(h) <==> data == "0x" + HexText(h) && |h| % 2 == 0
  {
    if |data| >= 2 {
      NibblesExact(data[2..], h);
      assert data == data[..2] + data[2..];
    }
    assert ("0x" + HexText(h))[2..] == HexText(h);
    assert ("0x" + HexText(h))[..2] == "0x";
  }

  // ---- word reading

  function WordAt(hex: Hex, index: nat): (r: Read<Hex>)
    ensures r.Ok? ==> |r.value| == 64
  {
    if 64 * index + 64 <= |hex| then Ok(hex[64 * index..64 * index + 64]) else Refused
  }

  function AddressOf(w: Hex): Read<Hex>
    requires |w| == 64
  {
    if AllZero(w[..24]) then Ok(w[24..]) else Refused
  }

  /** An offset or a length inside `limit` bytes, word-aligned when asked. */
  function Position(w: Hex, limit: nat, aligned: bool): (r: Read<nat>)
    ensures r.Ok? ==> r.value == Value(w) <= limit && (aligned ==> r.value % 32 == 0)
  {
    if Value(w) > limit then Refused
    else if aligned && Value(w) % 32 != 0 then Refused
    else Ok(Value(w))
  }

  function Padded(length: nat): nat {
    (length + 31) / 32 * 64
  }

  /** A `bytes` value whose length word sits at byte `at`. */
  function DynamicBytes(hex: Hex, at: nat): Read<Hex>
    requires |hex| % 2 == 0
  {
    if at % 32 != 0 then Refused
    else
      var start := at / 32;
      var w :- WordAt(hex, start);
      var length :- Position(w, |hex| / 2, false);
      var from := (start + 1) * 64;
      var to := from + length * 2;
      if to > |hex| then Refused
      else
        var padded := from + Padded(length);
        if padded > |hex| || !AllZero(hex[to..padded]) then Refused
        else Ok(hex[from..to])
  }

  // ---- the standard encoding of `bytes`

  predicate IsBytes(p: Hex) {
    |p| % 2 == 0 && |p| / 2 < UINT_LIMIT
  }

  function EncodeBytes(p: Hex): Hex
    requires |p| % 2 == 0
  {
    Word(|p| / 2) + p + Zeros(Padded(|p| / 2) - |p|)
  }

  lemma PaddedCovers(length: nat)
    ensures 2 * length <= Padded(length) < 2 * length + 64 && Padded(length) % 64 == 0
  {
  }

  /** A word, that many bytes, and zeros up to a whole word. */
  predicate IsPacked(w: Hex, p: Hex, z: Hex) {
    |w| == 64 && |p| == 2 * Value(w) && |p| + |z| == Padded(Value(w)) && AllZero(z)
  }

  lemma Aligned(at: nat)
    requires at % 32 == 0
    ensures at / 32 * 64 == 2 * at
  {
  }

  /** On whatever data, a read that succeeds stayed inside it. */
  lemma BytesInside(hex: Hex, at: nat) returns (w: Hex, z: Hex)
    requires |hex| % 2 == 0 && DynamicBytes(hex, at).Ok?
    ensures var p := DynamicBytes(hex, at).value;
            && IsPacked(w, p, z)
            && 2 * at + |w + p + z| <= |hex|
            && hex[2 * at..2 * at + |w + p + z|] == w + p + z
  {
    Aligned(at);
    var from := 2 * at + 64;
    w := hex[2 * at..from];
    var length := Value(w);
    PaddedCovers(length);
    var to, padded := from + 2 * length, from + Padded(length);
    z := hex[to..padded];
    var p := hex[from..to];
    Slices(hex, 2 * at, from, to, padded);
  }

  lemma Slices(s: Hex, a: nat, b: nat, c: nat, d: nat)
    requires a <= b <= c <= d <= |s|
    ensures s[a..d] == s[a..b] + s[b..c] + s[c..d]
  {
  }

  lemma SubSlice(s: Hex, a: nat, n: nat, i: nat, j: nat)
    requires i <= j <= n && a + n <= |s|
    ensures s[a..a + n][i..j] == s[a + i..a + j]
  {
    var l, r := s[a..a + n][i..j], s[a + i..a + j];
    assert |l| == |r|;
    assert forall k :: 0 <= k < |l| ==> l[k] == r[k];
  }

  lemma Pieces(hex: Hex, a: nat, w: Hex, p: Hex, z: Hex)
    requires a + |w + p + z| <= |hex| && hex[a..a + |w + p + z|] == w + p + z
    ensures var b := a + |w|;
            var c := b + |p|;
            hex[a..b] == w && hex[b..c] == p && hex[c..c + |z|] == z
  {
    var s := hex[a..a + |w + p + z|];
    var c := a + |w| + |p|;
    assert s[0..|w|] == w && s[|w|..|w| + |p|] == p && s[|w| + |p|..|s|] == z;
    SubSlice(hex, a, |s|, 0, |w|);
    SubSlice(hex, a, |s|, |w|, |w| + |p|);
    SubSlice(hex, a, |s|, |w| + |p|, |s|);
    assert a + |s| == c + |z| && a + (|w| + |p|) == c;
  }

  lemma PackedIsRead(hex: Hex, at: nat, w: Hex, p: Hex, z: Hex)
    requires |hex| % 2 == 0 && at % 32 == 0 && IsPacked(w, p, z)
    requires 2 * at + |w + p + z| <= |hex| && hex[2 * at..2 * at + |w + p + z|] == w + p + z
    ensures DynamicBytes(hex, at) == Ok(p)
  {
    PaddedCovers(Value(w));
    Aligned(at);
    Pieces(hex, 2 * at, w, p, z);
    assert WordAt(hex, at / 32) == Ok(w);
  }

  lemma EncodeBytesPacked(p: Hex)
    requires IsBytes(p)
    ensures var z := Zeros(Padded(|p| / 2) - |p|); IsPacked(Word(|p| / 2), p, z) && EncodeBytes(p) == Word(|p| / 2) + p + z
  {
    PaddedCovers(|p| / 2);
    WordValue(|p| / 2);
  }

  lemma PackedIsEncoded(w: Hex, p: Hex, z: Hex)
    requires IsPacked(w, p, z)
    ensures IsBytes(p) && EncodeBytes(p) == w + p + z
  {
    WordOfValue(w);
    ZeroIsZeros(z);
  }

  lemma Half(n: nat)
    requires n % 64 == 0
    ensures n / 2 % 32 == 0 && 2 * (n / 2) == n
  {
    var k := n / 64;
    assert n == 64 * k;
    assert n / 2 == 32 * k;
  }

  lemma Middle(before: Hex, e: Hex, after: Hex)
    ensures (before + e + after)[|before|..|before| + |e|] == e
  {
  }

  lemma EncodedLength(p: Hex)
    requires |p| % 2 == 0
    ensures |EncodeBytes(p)| == 64 + Padded(|p| / 2) && |EncodeBytes(p)| % 64 == 0
  {
    PaddedCovers(|p| / 2);
    NextMultiple(Padded(|p| / 2));
  }

  lemma NextMultiple(n: nat)
    requires n % 64 == 0
    ensures (64 + n) % 64 == 0
  {
  }

  lemma Assoc(a: Hex, b: Hex, c: Hex)
    ensures (a + b) + c == a + (b + c)
  {
  }

  /** Reading back the standard encoding, wherever it starts and whatever follows. */
  lemma BytesRoundTrip(before: Hex, p: Hex, after: Hex)
    requires |before| % 64 == 0 && |after| % 2 == 0 && IsBytes(p)
    ensures |before + EncodeBytes(p) + after| % 2 == 0
    ensures DynamicBytes(before + EncodeBytes(p) + after, |before| / 2) == Ok(p)
  {
    Half(|before|);
    EncodedLength(p);
    Middle(before, EncodeBytes(p), after);
    EncodedIsRead(before + EncodeBytes(p) + after, |before| / 2, p);
  }

  /** The data hold the standard encoding of `p` at byte `at`. */
  predicate EncodedAt(hex: Hex, at: nat, p: Hex) {
    IsBytes(p) && 2 * at + |EncodeBytes(p)| <= |hex| && hex[2 * at..2 * at + |EncodeBytes(p)|] == EncodeBytes(p)
  }

  /** The reader accepts at an aligned offset exactly the data that hold a standard encoding there. */
  lemma DynamicBytesExact(hex: Hex, at: nat, p: Hex)
    requires |hex| % 2 == 0
    ensures DynamicBytes(hex, at) == Ok(p) <==> at % 32 == 0 && EncodedAt(hex, at, p)
  {
    if DynamicBytes(hex, at).Ok? {
      var w, z := BytesInside(hex, at);
      PackedIsEncoded(w, DynamicBytes(hex, at).value, z);
    }
    if at % 32 == 0 && EncodedAt(hex, at, p) {
      EncodedIsRead(hex, at, p);
    }
  }

  lemma EncodedIsRead(hex: Hex, at: nat, p: Hex)
    requires |hex| % 2 == 0 && at % 32 == 0 && EncodedAt(hex, at, p)
    ensures DynamicBytes(hex, at) == Ok(p)
  {
    EncodeBytesPacked(p);
    PackedIsRead(hex, at, Word(|p| / 2), p, Zeros(Padded(|p| / 2) - |p|));
  }
}
