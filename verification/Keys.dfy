/** Identity of messages and raw facts: components joined by a separator, and the order of the joined strings. */
module Keys {
  import opened Collections
  import opened Sorting

  datatype MessageKey = MessageKey(
    sourceBlockchainId: string,
    destinationBlockchainId: string,
    messenger: string,
    registryProtocolVersion: int,
    messageId: string)

  datatype RawFactRef = RawFactRef(evmChainId: int, blockHash: string, txHash: string, logIndex: int)

  // ---- decimal text of an integer

  const DIGITS := "0123456789"

  function Digits(n: nat): (r: string)
    ensures r != [] && forall c :: c in r ==> c in DIGITS
  {
    if n < 10 then [DIGITS[n]] else Digits(n / 10) + [DIGITS[n % 10]]
  }

  function Decimal(n: int): string {
    if n < 0 then "-" + Digits(-n) else Digits(n)
  }

  lemma DigitDistinct(a: nat, b: nat)
    requires a < 10 && b < 10 && DIGITS[a] == DIGITS[b]
    ensures a == b
  {
  }

  lemma {:induction false} DigitsInjective(a: nat, b: nat)
    requires Digits(a) == Digits(b)
    ensures a == b
    decreases a
  {
    var s := Digits(a);
    assert s[|s| - 1] == DIGITS[a % 10] == DIGITS[b % 10];
    DigitDistinct(a % 10, b % 10);
    if a >= 10 {
      assert Digits(b) == s && |s| >= 2;
      assert Digits(a / 10) == s[..|s| - 1];
      assert Digits(b / 10) == s[..|s| - 1];
      DigitsInjective(a / 10, b / 10);
    } else {
      assert |s| == 1;
      assert b >= 10 ==> |Digits(b)| >= 2;
    }
  }

  lemma DecimalInjective(a: int, b: int)
    requires Decimal(a) == Decimal(b)
    ensures a == b
  {
    assert a < 0 ==> Decimal(a)[0] == '-' && Digits(-a) == Decimal(a)[1..];
    assert b < 0 ==> Decimal(b)[0] == '-' && Digits(-b) == Decimal(b)[1..];
    assert a >= 0 ==> Decimal(a)[0] in Digits(a) && Decimal(a)[0] != '-';
    assert b >= 0 ==> Decimal(b)[0] in Digits(b) && Decimal(b)[0] != '-';
    DigitsInjective(if a < 0 then -a else a, if b < 0 then -b else b);
  }

  // ---- joining

  const SEP: char := '|'

  predicate Plain(s: string) {
    SEP !in s
  }

  function Join(parts: seq<string>): string {
    if parts == [] then ""
    else if |parts| == 1 then parts[0]
    else parts[0] + [SEP] + Join(parts[1..])
  }

  lemma DecimalIsPlain(n: int)
    ensures Plain(Decimal(n))
  {
    assert SEP !in DIGITS;
    assert forall c :: c in Decimal(n) ==> c == '-' || c in DIGITS;
  }

  /** Text before the first separator is determined. */
  lemma FirstPart(a: string, x: string, b: string, y: string)
    requires Plain(a) && Plain(b) && a + [SEP] + x == b + [SEP] + y
    ensures a == b && x == y
  {
    var s := a + [SEP] + x;
    assert s[|a|] == SEP && s[|b|] == SEP;
    assert s[..|a|] == a && s[..|b|] == b;
    forall i | 0 <= i < |a| ensures s[i] != SEP {
      assert s[i] == a[i] && a[i] in a;
    }
    forall i | 0 <= i < |b| ensures s[i] != SEP {
      assert s[i] == b[i] && b[i] in b;
    }
    assert s[|a| + 1..] == x && s[|b| + 1..] == y;
  }

  /** Joins of equally many parts are equal only for equal parts, when no part but the last holds the separator. */
  lemma {:induction false} JoinInjective(ps: seq<string>, qs: seq<string>)
    requires |ps| == |qs| && Join(ps) == Join(qs)
    requires forall i :: 0 <= i < |ps| - 1 ==> Plain(ps[i]) && Plain(qs[i])
    ensures ps == qs
  {
    if |ps| > 1 {
      assert Plain(ps[0]) && Plain(qs[0]);
      FirstPart(ps[0], Join(ps[1..]), qs[0], Join(qs[1..]));
      forall i | 0 <= i < |ps[1..]| - 1 ensures Plain(ps[1..][i]) && Plain(qs[1..][i]) {
        assert Plain(ps[i + 1]) && Plain(qs[i + 1]);
      }
      JoinInjective(ps[1..], qs[1..]);
      assert ps == [ps[0]] + ps[1..] && qs == [qs[0]] + qs[1..];
    } else if |ps| == 1 {
      assert ps == [ps[0]] && qs == [qs[0]];
    }
  }

  function MessageParts(k: MessageKey): seq<string> {
    [k.sourceBlockchainId, k.destinationBlockchainId, k.messenger, Decimal(k.registryProtocolVersion), k.messageId]
  }

  function MessageKeyOf(k: MessageKey): string {
    Join(MessageParts(k))
  }

  function FactParts(r: RawFactRef): seq<string> {
    [Decimal(r.evmChainId), r.blockHash, r.txHash, Decimal(r.logIndex)]
  }

  function RawFactRefOf(r: RawFactRef): string {
    Join(FactParts(r))
  }

  predicate PlainKey(k: MessageKey) {
    Plain(k.sourceBlockchainId) && Plain(k.destinationBlockchainId) && Plain(k.messenger)
  }

  predicate PlainRef(r: RawFactRef) {
    Plain(r.blockHash) && Plain(r.txHash)
  }

  /** All five components take part in a message's identity. */
  lemma MessageKeyInjective(a: MessageKey, b: MessageKey)
    requires PlainKey(a) && PlainKey(b)
    ensures MessageKeyOf(a) == MessageKeyOf(b) <==> a == b
  {
    if MessageKeyOf(a) == MessageKeyOf(b) {
      DecimalIsPlain(a.registryProtocolVersion);
      DecimalIsPlain(b.registryProtocolVersion);
      var p, q := MessageParts(a), MessageParts(b);
      JoinInjective(p, q);
      assert p[0] == q[0] && p[1] == q[1] && p[2] == q[2] && p[3] == q[3] && p[4] == q[4];
      DecimalInjective(a.registryProtocolVersion, b.registryProtocolVersion);
    }
  }

  /** All four components take part in a raw fact's identity. */
  lemma RawFactRefInjective(a: RawFactRef, b: RawFactRef)
    requires PlainRef(a) && PlainRef(b)
    ensures RawFactRefOf(a) == RawFactRefOf(b) <==> a == b
  {
    if RawFactRefOf(a) == RawFactRefOf(b) {
      DecimalIsPlain(a.evmChainId);
      DecimalIsPlain(b.evmChainId);
      var p, q := FactParts(a), FactParts(b);
      JoinInjective(p, q);
      assert p[0] == q[0] && p[1] == q[1] && p[2] == q[2] && p[3] == q[3];
      DecimalInjective(a.evmChainId, b.evmChainId);
      DecimalInjective(a.logIndex, b.logIndex);
    }
  }

  // ---- exactly which identities are unambiguous

  /** No other reference has this one's text. */
  ghost predicate RefIsUnique(r: RawFactRef) {
    forall q :: RawFactRefOf(q) == RawFactRefOf(r) ==> q == r
  }

  /** No other key has this one's text. */
  ghost predicate KeyIsUnique(k: MessageKey) {
    forall q :: MessageKeyOf(q) == MessageKeyOf(k) ==> q == k
  }

  function Separators(s: string): nat {
    if s == [] then 0 else Separators(s[..|s| - 1]) + (if s[|s| - 1] == SEP then 1 else 0)
  }

  lemma {:induction false} SeparatorsConcat(a: string, b: string)
    ensures Separators(a + b) == Separators(a) + Separators(b)
  {
    if b == [] {
      assert a + b == a;
    } else {
      assert (a + b)[..|a + b| - 1] == a + b[..|b| - 1];
      SeparatorsConcat(a, b[..|b| - 1]);
    }
  }

  lemma {:induction false} PlainHasNone(s: string)
    ensures Plain(s) <==> Separators(s) == 0
  {
    if s != [] {
      PlainHasNone(s[..|s| - 1]);
      assert s == s[..|s| - 1] + [s[|s| - 1]];
    }
  }

  /** Two texts with the separator between them. */
  function Glue(a: string, b: string): string {
    a + [SEP] + b
  }

  lemma GlueAssoc(a: string, b: string, c: string)
    ensures Glue(Glue(a, b), c) == Glue(a, Glue(b, c))
  {
  }

  lemma GlueSeparators(a: string, b: string)
    ensures Separators(Glue(a, b)) == Separators(a) + 1 + Separators(b)
  {
    OneSeparator();
    SeparatorsConcat(a + [SEP], b);
    SeparatorsConcat(a, [SEP]);
  }

  lemma RefText(r: RawFactRef)
    ensures RawFactRefOf(r) == Glue(Decimal(r.evmChainId), Glue(r.blockHash, Glue(r.txHash, Decimal(r.logIndex))))
  {
    var p := FactParts(r);
    assert p[1..][1..] == p[2..] && p[2..][1..] == p[3..];
    assert Join(p[3..]) == p[3];
    assert Join(p[2..]) == Glue(p[2], p[3]);
    assert Join(p[1..]) == Glue(p[1], Join(p[2..]));
  }

  lemma OneSeparator()
    ensures Separators([SEP]) == 1
  {
    assert [SEP][..0] == [];
  }

  lemma RefSeparators(r: RawFactRef)
    ensures Separators(RawFactRefOf(r)) == 3 + Separators(r.blockHash) + Separators(r.txHash)
  {
    var c, l := Decimal(r.evmChainId), Decimal(r.logIndex);
    RefText(r);
    GlueSeparators(c, Glue(r.blockHash, Glue(r.txHash, l)));
    GlueSeparators(r.blockHash, Glue(r.txHash, l));
    GlueSeparators(r.txHash, l);
    DecimalIsPlain(r.evmChainId);
    DecimalIsPlain(r.logIndex);
    PlainHasNone(c);
    PlainHasNone(l);
  }

  lemma SplitAtSeparator(s: string) returns (x: string, y: string)
    requires !Plain(s)
    ensures s == Glue(x, y) && |x| < |s|
  {
    var i :| 0 <= i < |s| && s[i] == SEP;
    x, y := s[..i], s[i + 1..];
  }

  lemma SplitHashCollides(r: RawFactRef)
    requires !PlainRef(r)
    ensures !RefIsUnique(r)
  {
    var l := Decimal(r.logIndex);
    RefText(r);
    if !Plain(r.blockHash) {
      var x, y := SplitAtSeparator(r.blockHash);
      var q := r.(blockHash := x, txHash := Glue(y, r.txHash));
      RefText(q);
      GlueAssoc(y, r.txHash, l);
      GlueAssoc(x, y, Glue(r.txHash, l));
      assert q != r && RawFactRefOf(q) == RawFactRefOf(r);
    } else {
      var x, y := SplitAtSeparator(r.txHash);
      var q := r.(blockHash := Glue(r.blockHash, x), txHash := y);
      RefText(q);
      GlueAssoc(x, y, l);
      GlueAssoc(r.blockHash, x, Glue(y, l));
      assert |q.blockHash| > |r.blockHash| && RawFactRefOf(q) == RawFactRefOf(r);
    }
  }

  /** A raw fact reference is unambiguous exactly when neither hash holds the separator. */
  lemma RefUniqueIffPlain(r: RawFactRef)
    ensures RefIsUnique(r) <==> PlainRef(r)
  {
    if PlainRef(r) {
      forall q | RawFactRefOf(q) == RawFactRefOf(r) ensures q == r {
        RefSeparators(q);
        RefSeparators(r);
        PlainHasNone(q.blockHash);
        PlainHasNone(q.txHash);
        PlainHasNone(r.blockHash);
        PlainHasNone(r.txHash);
        RawFactRefInjective(q, r);
      }
    } else {
      SplitHashCollides(r);
    }
  }

  /** Some segment of the id, other than the last, reads as a version. */
  ghost predicate HoldsVersion(id: string) {
    || (exists n, rest :: id == VersionFirst(n, rest))
    || (exists before, n, rest :: id == VersionLater(before, n, rest))
  }

  function VersionFirst(n: int, rest: string): string {
    Glue(Decimal(n), rest)
  }

  function VersionLater(before: string, n: int, rest: string): string {
    Glue(before, Glue(Decimal(n), rest))
  }

  function Tail(k: MessageKey): string {
    VersionFirst(k.registryProtocolVersion, k.messageId)
  }

  lemma MessageText(k: MessageKey)
    ensures MessageKeyOf(k) == Glue(k.sourceBlockchainId, Glue(k.destinationBlockchainId, Glue(k.messenger, Tail(k))))
  {
    var p := MessageParts(k);
    assert p[1..][1..] == p[2..] && p[2..][1..] == p[3..] && p[3..][1..] == p[4..];
    assert Join(p[4..]) == p[4];
    assert Join(p[3..]) == Glue(p[3], p[4]);
    assert Join(p[2..]) == Glue(p[2], Join(p[3..]));
    assert Join(p[1..]) == Glue(p[1], Join(p[2..]));
  }

  /** Every separator in a chain id or in the messenger can be read as a boundary between components. */
  lemma SplitComponentCollides(k: MessageKey)
    requires !PlainKey(k)
    ensures !KeyIsUnique(k)
  {
    MessageText(k);
    var s, d, m, t := k.sourceBlockchainId, k.destinationBlockchainId, k.messenger, Tail(k);
    if !Plain(s) {
      var x, y := SplitAtSeparator(s);
      var q := k.(sourceBlockchainId := x, destinationBlockchainId := y, messenger := Glue(d, m));
      MessageText(q);
      GlueAssoc(d, m, t);
      GlueAssoc(x, y, Glue(d, Glue(m, t)));
      assert q != k && MessageKeyOf(q) == MessageKeyOf(k);
    } else if !Plain(d) {
      var x, y := SplitAtSeparator(d);
      var q := k.(sourceBlockchainId := Glue(s, x), destinationBlockchainId := y);
      MessageText(q);
      GlueAssoc(x, y, Glue(m, t));
      GlueAssoc(s, x, Glue(y, Glue(m, t)));
      assert |q.sourceBlockchainId| > |s| && MessageKeyOf(q) == MessageKeyOf(k);
    } else {
      var x, y := SplitAtSeparator(m);
      var q := k.(destinationBlockchainId := Glue(d, x), messenger := y);
      MessageText(q);
      GlueAssoc(x, y, t);
      GlueAssoc(d, x, Glue(y, t));
      assert |q.destinationBlockchainId| > |d| && MessageKeyOf(q) == MessageKeyOf(k);
    }
  }

  /** A version inside the message id can be read as the version of the key. */
  lemma VersionInIdCollides(k: MessageKey)
    requires HoldsVersion(k.messageId)
    ensures !KeyIsUnique(k)
  {
    MessageText(k);
    var v := Decimal(k.registryProtocolVersion);
    if n, rest :| k.messageId == VersionFirst(n, rest) {
      var q := k.(messenger := Glue(k.messenger, v), registryProtocolVersion := n, messageId := rest);
      MessageText(q);
      GlueAssoc(k.messenger, v, VersionFirst(n, rest));
      assert |q.messenger| > |k.messenger| && MessageKeyOf(q) == MessageKeyOf(k);
    } else {
      var before, n, rest :| k.messageId == VersionLater(before, n, rest);
      var q := k.(messenger := Glue(k.messenger, Glue(v, before)), registryProtocolVersion := n, messageId := rest);
      MessageText(q);
      GlueAssoc(v, before, VersionFirst(n, rest));
      GlueAssoc(k.messenger, Glue(v, before), VersionFirst(n, rest));
      assert |q.messenger| > |k.messenger| && MessageKeyOf(q) == MessageKeyOf(k);
    }
  }

  /** The text up to the version: three components, each closed by a separator. */
  function KeyHead(k: MessageKey): string {
    Glue(Glue(Glue(k.sourceBlockchainId, k.destinationBlockchainId), k.messenger), "")
  }

  lemma HeadSeparators(k: MessageKey)
    ensures Separators(KeyHead(k)) == 3 + Separators(k.sourceBlockchainId) + Separators(k.destinationBlockchainId) + Separators(k.messenger)
    ensures Separators(KeyHead(k)) == 3 <==> PlainKey(k)
  {
    var a, b, c := k.sourceBlockchainId, k.destinationBlockchainId, k.messenger;
    GlueSeparators(Glue(Glue(a, b), c), "");
    GlueSeparators(Glue(a, b), c);
    GlueSeparators(a, b);
    PlainHasNone(a);
    PlainHasNone(b);
    PlainHasNone(c);
  }

  lemma HeadAndTail(k: MessageKey)
    ensures MessageKeyOf(k) == KeyHead(k) + Tail(k)
  {
    var a, b, c, t := k.sourceBlockchainId, k.destinationBlockchainId, k.messenger, Tail(k);
    MessageText(k);
    GlueAssoc(a, b, Glue(c, t));
    GlueAssoc(Glue(a, b), c, t);
  }

  lemma FirstSeparator(v: string, id: string, k: nat)
    requires Plain(v) && k < |Glue(v, id)| && Glue(v, id)[k] == SEP
    ensures k >= |v|
  {
    forall i | 0 <= i < |v| ensures Glue(v, id)[i] != SEP {
      assert Glue(v, id)[i] == v[i] && v[i] in v;
    }
  }

  lemma BeyondVersion(v: string, id: string, x: string, rest: string) returns (y: string)
    requires Plain(v) && x != [] && x[|x| - 1] == SEP && Glue(v, id) == x + rest
    ensures x == v + [SEP] + y && id == y + rest
  {
    var t := Glue(v, id);
    assert t[|x| - 1] == SEP;
    FirstSeparator(v, id, |x| - 1);
    y := x[|v| + 1..];
    PrefixesOf(v + [SEP], id, x, rest);
    assert x == v + [SEP] + y;
    assert (v + [SEP]) + (y + rest) == x + rest;
    SamePrefixRest(v + [SEP], id, y + rest);
  }

  /** A longer head swallows the version and leaves a version inside the message id. */
  lemma LongerHead(n: int, id: string, x: string, m: int, rest: string)
    requires x != [] && x[|x| - 1] == SEP && VersionFirst(n, id) == x + VersionFirst(m, rest)
    ensures HoldsVersion(id)
  {
    DecimalIsPlain(n);
    var y := BeyondVersion(Decimal(n), id, x, VersionFirst(m, rest));
    if y == [] {
      assert id == VersionFirst(m, rest);
    } else {
      assert y == y[..|y| - 1] + [SEP];
      assert id == VersionLater(y[..|y| - 1], m, rest);
    }
  }

  lemma SamePrefixRest(p: string, x: string, y: string)
    requires p + x == p + y
    ensures x == y
  {
    assert (p + x)[|p|..] == x && (p + y)[|p|..] == y;
  }

  lemma StrictPrefix(q: string, p: string)
    requires q <= p && |q| < |p| && p[|p| - 1] == SEP
    ensures Separators(q) < Separators(p)
  {
    var r := p[|q|..|p| - 1];
    assert p == q + r + [SEP];
    SeparatorsConcat(q + r, [SEP]);
    SeparatorsConcat(q, r);
    OneSeparator();
  }

  lemma PrefixesOf(p: string, x: string, q: string, y: string)
    requires p + x == q + y
    ensures |p| <= |q| ==> p <= q
    ensures |q| <= |p| ==> q <= p
  {
    var t := p + x;
    assert t[..|p|] == p && t[..|q|] == q;
    assert |p| <= |q| ==> t[..|q|][..|p|] == t[..|p|];
    assert |q| <= |p| ==> t[..|p|][..|q|] == t[..|q|];
  }

  /** Of two heads of one text the one with fewer separators is a prefix of the other. */
  lemma HeadsNest(p: string, x: string, q: string, y: string)
    requires p + x == q + y && Separators(p) <= Separators(q) && p != [] && p[|p| - 1] == SEP
    ensures p <= q
  {
    PrefixesOf(p, x, q, y);
    if |q| < |p| {
      StrictPrefix(q, p);
    }
  }

  lemma SameHead(k: MessageKey, q: MessageKey)
    requires PlainKey(k) && MessageKeyOf(q) == MessageKeyOf(k) && KeyHead(q) == KeyHead(k)
    ensures q == k
  {
    HeadSeparators(k);
    HeadSeparators(q);
    MessageKeyInjective(q, k);
  }

  lemma BeyondHead(h: string, s: string, g: string, t: string) returns (x: string)
    requires h <= g && h + s == g + t
    ensures x == g[|h|..] && g == h + x && s == x + t
  {
    x := g[|h|..];
    assert g == h + x && h + x + t == h + (x + t);
    SamePrefixRest(h, s, x + t);
  }

  lemma HeadsDecide(k: MessageKey, q: MessageKey)
    requires PlainKey(k) && !HoldsVersion(k.messageId) && MessageKeyOf(q) == MessageKeyOf(k)
    ensures q == k
  {
    var h, g := KeyHead(k), KeyHead(q);
    HeadSeparators(k);
    HeadSeparators(q);
    HeadAndTail(k);
    HeadAndTail(q);
    HeadsNest(h, Tail(k), g, Tail(q));
    var x := BeyondHead(h, Tail(k), g, Tail(q));
    if x != [] {
      LongerHead(k.registryProtocolVersion, k.messageId, x, q.registryProtocolVersion, q.messageId);
    } else {
      SameHead(k, q);
    }
  }

  // A message key is unambiguous exactly when its chain ids and messenger hold no separator and no segment of its
  // message id but the last reads as a version.
  lemma KeyUniqueIff(k: MessageKey)
    ensures KeyIsUnique(k) <==> PlainKey(k) && !HoldsVersion(k.messageId)
  {
    if !PlainKey(k) {
      SplitComponentCollides(k);
    } else if HoldsVersion(k.messageId) {
      VersionInIdCollides(k);
    } else {
      forall q | MessageKeyOf(q) == MessageKeyOf(k) ensures q == k {
        HeadsDecide(k, q);
      }
    }
  }
}
