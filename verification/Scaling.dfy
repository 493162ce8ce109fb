/** Token scaling between home and remote units, and the multipliers a registration derives. */
module Scaling {
  import opened ProofInputs

  const MAX_TOKEN_DECIMALS: int := 18

  datatype ScalingFailure = Overflow | DivisionByZero | Negative | DecimalsOutOfRange | DecimalsExceedMaximum

  datatype Scaled<+T> = Ok(value: T) | Failed(reason: ScalingFailure)

  function ScaleTokens(tokenMultiplier: int, multiplyOnRemote: bool, amount: int, isSendToRemote: bool): Scaled<int> {
    if amount < 0 || tokenMultiplier < 0 then Failed(Negative)
    else if multiplyOnRemote == isSendToRemote then
      if amount * tokenMultiplier > MAX_UINT256 then Failed(Overflow) else Ok(amount * tokenMultiplier)
    else if tokenMultiplier == 0 then Failed(DivisionByZero)
    else Ok(amount / tokenMultiplier)
  }

  /** Home units to remote units. */
  function ApplyTokenScale(tokenMultiplier: int, multiplyOnRemote: bool, homeAmount: int): Scaled<int> {
    ScaleTokens(tokenMultiplier, multiplyOnRemote, homeAmount, true)
  }

  /** Remote units back to home units. */
  function RemoveTokenScale(tokenMultiplier: int, multiplyOnRemote: bool, remoteAmount: int): Scaled<int> {
    ScaleTokens(tokenMultiplier, multiplyOnRemote, remoteAmount, false)
  }

  function Pow10(n: nat): (p: int)
    ensures p >= 1
  {
    if n == 0 then 1 else 10 * Pow10(n - 1)
  }

  datatype Multiplier = Multiplier(tokenMultiplier: int, multiplyOnRemote: bool)

  function DeriveTokenMultiplierValues(homeDecimals: int, remoteDecimals: int): Scaled<Multiplier> {
    if homeDecimals < 0 || homeDecimals > 255 then Failed(DecimalsOutOfRange)
    else if remoteDecimals < 0 || remoteDecimals > 255 then Failed(DecimalsOutOfRange)
    else if remoteDecimals > MAX_TOKEN_DECIMALS then Failed(DecimalsExceedMaximum)
    else
      var multiplyOnRemote := remoteDecimals > homeDecimals;
      var exponent := if multiplyOnRemote then remoteDecimals - homeDecimals else homeDecimals - remoteDecimals;
      Ok(Multiplier(Pow10(exponent), multiplyOnRemote))
  }

  function DeriveCollateralNeeded(tokenMultiplier: int, multiplyOnRemote: bool, initialReserveImbalance: int): Scaled<int> {
    var scaled := RemoveTokenScale(tokenMultiplier, multiplyOnRemote, initialReserveImbalance);
    if scaled.Failed? then scaled
    else if multiplyOnRemote then
      if tokenMultiplier == 0 then Failed(DivisionByZero)
      else if initialReserveImbalance % tokenMultiplier != 0 then
        if scaled.value + 1 > MAX_UINT256 then Failed(Overflow) else Ok(scaled.value + 1)
      else scaled
    else scaled
  }

  lemma {:induction false} Pow10Adds(a: nat, b: nat)
    ensures Pow10(a + b) == Pow10(a) * Pow10(b)
  {
    if a != 0 {
      Pow10Adds(a - 1, b);
      assert 10 * (Pow10(a - 1) * Pow10(b)) == (10 * Pow10(a - 1)) * Pow10(b);
    }
  }

  /** The multiplier is the decimal distance: one whole home token and one whole remote token are the same amount. */
  lemma MultiplierAlignsDecimals(homeDecimals: int, remoteDecimals: int)
    requires DeriveTokenMultiplierValues(homeDecimals, remoteDecimals).Ok?
    ensures var m := DeriveTokenMultiplierValues(homeDecimals, remoteDecimals).value;
            && 0 <= homeDecimals <= 255 && 0 <= remoteDecimals <= MAX_TOKEN_DECIMALS
            && (m.multiplyOnRemote ==> Pow10(homeDecimals) * m.tokenMultiplier == Pow10(remoteDecimals))
            && (!m.multiplyOnRemote ==> Pow10(remoteDecimals) * m.tokenMultiplier == Pow10(homeDecimals))
  {
    if remoteDecimals > homeDecimals {
      Pow10Adds(homeDecimals, remoteDecimals - homeDecimals);
    } else {
      Pow10Adds(remoteDecimals, homeDecimals - remoteDecimals);
    }
  }

  lemma DivRemainder(a: int, m: int)
    requires a >= 0 && m > 0
    ensures a == m * (a / m) + a % m && 0 <= a % m < m && a / m >= 0
  {
  }

  lemma MulSign(m: int, d: int)
    requires m > 0
    ensures d >= 0 ==> m * d >= 0
    ensures d < 0 ==> m * d < 0
  {
  }

  lemma MulOrder(m: int, x: int, y: int)
    requires m > 0
    ensures x <= y <==> m * x <= m * y
  {
    MulSign(m, y - x);
    assert m * (y - x) == m * y - m * x;
  }

  lemma QuotientUnique(a: int, m: int, q: int)
    requires m > 0 && a >= 0 && m * q <= a < m * q + m
    ensures a / m == q
  {
    DivRemainder(a, m);
    var d := a / m;
    assert m * (d + 1) == m * d + m && m * (q + 1) == m * q + m;
    MulOrder(m, d + 1, q);
    MulOrder(m, q + 1, d);
  }

  lemma DivideAndBack(h: int, m: int)
    requires h >= 0 && m > 0
    ensures 0 <= h - (h / m) * m < m && (h / m) * m >= 0
  {
    DivRemainder(h, m);
    assert (h / m) * m == m * (h / m);
    MulSign(m, h / m);
  }

  /** The way back exists: nothing to divide by zero, and nothing that overflows. */
  predicate ReturnsWhole(tokenMultiplier: int, multiplyOnRemote: bool, homeAmount: int) {
    tokenMultiplier > 0 && (multiplyOnRemote || (homeAmount / tokenMultiplier) * tokenMultiplier <= MAX_UINT256)
  }

  // Whatever was sent, the way back succeeds exactly when there is one, never returns more than was sent, and loses less than
  // one multiplier; nothing at all is lost where the remote has the finer unit.
  lemma RoundTripBounds(tokenMultiplier: int, multiplyOnRemote: bool, homeAmount: int)
    requires ApplyTokenScale(tokenMultiplier, multiplyOnRemote, homeAmount).Ok?
    ensures var back := RemoveTokenScale(tokenMultiplier, multiplyOnRemote, ApplyTokenScale(tokenMultiplier, multiplyOnRemote, homeAmount).value);
            && (back.Ok? <==> ReturnsWhole(tokenMultiplier, multiplyOnRemote, homeAmount))
            && (back.Ok? ==> 0 <= homeAmount - back.value < tokenMultiplier && (multiplyOnRemote ==> back.value == homeAmount))
            && (tokenMultiplier > 0 && homeAmount <= MAX_UINT256 ==> back.Ok?)
  {
    var m := tokenMultiplier;
    if m > 0 {
      if multiplyOnRemote {
        assert m * homeAmount == homeAmount * m;
        MulSign(m, homeAmount);
        QuotientUnique(homeAmount * m, m, homeAmount);
      } else {
        DivideAndBack(homeAmount, m);
        DivRemainder(homeAmount, m);
      }
    }
  }

  /** Rounded up: the least count of multipliers that reaches `a`. */
  lemma LeastCover(a: int, m: int, c: int, needed: int)
    requires m > 0 && m * needed - m < a <= m * needed
    ensures c >= needed <==> m * c >= a
  {
    assert m * (needed - 1) == m * needed - m;
    MulOrder(m, needed, c);
    MulOrder(m, c, needed - 1);
  }

  lemma CollateralBounds(m: int, a: int)
    requires DeriveCollateralNeeded(m, true, a).Ok?
    ensures var needed := DeriveCollateralNeeded(m, true, a).value; m > 0 && a >= 0 && m * needed - m < a <= m * needed
  {
    DivRemainder(a, m);
    assert m * (a / m + 1) == m * (a / m) + m;
  }

  /** What a home amount is worth on the remote. */
  function RemoteValue(tokenMultiplier: int, multiplyOnRemote: bool, c: int): int
    requires tokenMultiplier > 0
  {
    if multiplyOnRemote then tokenMultiplier * c else c / tokenMultiplier
  }

  lemma DividedCover(a: int, m: int, c: int)
    requires m > 0
    ensures c / m >= a <==> c >= a * m
  {
    var q := c / m;
    assert c == m * q + c % m && 0 <= c % m < m;
    assert a * m == m * a && m * (q + 1) == m * q + m;
    MulOrder(m, a, q);
    MulOrder(m, q + 1, a);
  }

  /** The collateral derived for an initial imbalance is the least home amount whose remote value covers it, in both directions of scale. */
  lemma CollateralIsLeastCover(tokenMultiplier: int, multiplyOnRemote: bool, initialReserveImbalance: int, c: int)
    requires DeriveCollateralNeeded(tokenMultiplier, multiplyOnRemote, initialReserveImbalance).Ok?
    ensures var needed := DeriveCollateralNeeded(tokenMultiplier, multiplyOnRemote, initialReserveImbalance).value;
            && (tokenMultiplier > 0 ==> (c >= needed <==> RemoteValue(tokenMultiplier, multiplyOnRemote, c) >= initialReserveImbalance))
            && (tokenMultiplier <= 0 ==> tokenMultiplier == 0 && !multiplyOnRemote && needed == 0)
  {
    if multiplyOnRemote {
      CollateralBounds(tokenMultiplier, initialReserveImbalance);
      LeastCover(initialReserveImbalance, tokenMultiplier, c, DeriveCollateralNeeded(tokenMultiplier, true, initialReserveImbalance).value);
    } else if tokenMultiplier > 0 {
      DividedCover(initialReserveImbalance, tokenMultiplier, c);
    }
  }
}
