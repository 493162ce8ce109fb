/** Gate B: physical escrow coverage of the rounded-up liability, and why it is inductive. */
module GateB {
  import opened Collections
  import opened ProofInputs
  import opened Scaling

  datatype HomeUnits = Units(floor: int, ceil: int) | NoUnits(reason: ScalingFailure)

  function ToHomeUnits(remoteAmount: int, tokenMultiplier: int, multiplyOnRemote: bool): HomeUnits {
    if remoteAmount < 0 || tokenMultiplier < 0 then NoUnits(Negative)
    else if !multiplyOnRemote then
      if remoteAmount * tokenMultiplier > MAX_UINT256 then NoUnits(Overflow)
      else Units(remoteAmount * tokenMultiplier, remoteAmount * tokenMultiplier)
    else if tokenMultiplier == 0 then NoUnits(DivisionByZero)
    else
      var floor := remoteAmount / tokenMultiplier;
      Units(floor, if remoteAmount % tokenMultiplier == 0 then floor else floor + 1)
  }

  /** Two ports of one contract function: the floor is `removeTokenScale` on every input, failures included. */
  lemma FloorIsRemoveTokenScale(remoteAmount: int, tokenMultiplier: int, multiplyOnRemote: bool)
    ensures match ToHomeUnits(remoteAmount, tokenMultiplier, multiplyOnRemote)
            case Units(floor, ceil) => RemoveTokenScale(tokenMultiplier, multiplyOnRemote, remoteAmount) == Ok(floor) && floor <= ceil <= floor + 1
            case NoUnits(reason) => RemoveTokenScale(tokenMultiplier, multiplyOnRemote, remoteAmount) == Failed(reason)
  {
  }

  datatype RemoteLiability = RemoteLiability(
    remoteBlockchainId: string,
    remoteAddress: string,
    remoteUnits: int,
    floorHomeUnits: int,
    ceilHomeUnits: int,
    dust: int)

  datatype GateBOutcome = Covered | Shortfall | Undecided

  datatype GateBResult = GateBResult(
    outcome: GateBOutcome,
    reasons: seq<ReasonCode>,
    escrowBalance: int,
    floorLiability: int,
    conservativeLiability: int,
    totalDust: int,
    surplus: int,
    perRemote: seq<RemoteLiability>)

  function NotDecided(reason: ReasonCode): GateBResult {
    GateBResult(Undecided, [reason], 0, 0, 0, 0, 0, [])
  }

  /** The liability of one remote, or the reason there is none. */
  function LiabilityOf(r: RemoteObservation): Result {
    if r.transferredBalance.None? then Refused(ACC_I07_MISSING_OBSERVATION)
    else
      match ToHomeUnits(r.transferredBalance.value, r.scale.tokenMultiplier, r.scale.multiplyOnRemote)
      case NoUnits(_) => Refused(ACC_A06_ARITHMETIC_OUT_OF_RANGE)
      case Units(floor, ceil) =>
        Liability(RemoteLiability(r.remoteBlockchainId, r.remoteAddress, r.transferredBalance.value, floor, ceil, ceil - floor))
  }

  datatype Result = Liability(value: RemoteLiability) | Refused(reason: ReasonCode)

  /** The first refusal, in order, ends the loop. */
  function Liabilities(remotes: seq<RemoteObservation>): Scan {
    if remotes == [] then AllOf([])
    else
      match Liabilities(remotes[..|remotes| - 1])
      case Stopped(reason) => Stopped(reason)
      case AllOf(front) =>
        match LiabilityOf(remotes[|remotes| - 1])
        case Refused(reason) => Stopped(reason)
        case Liability(l) => AllOf(front + [l])
  }

  datatype Scan = AllOf(liabilities: seq<RemoteLiability>) | Stopped(reason: ReasonCode)

  function FloorTotal(s: seq<RemoteLiability>): int {
    if s == [] then 0 else FloorTotal(s[..|s| - 1]) + s[|s| - 1].floorHomeUnits
  }

  function CeilTotal(s: seq<RemoteLiability>): int {
    if s == [] then 0 else CeilTotal(s[..|s| - 1]) + s[|s| - 1].ceilHomeUnits
  }

  function Compared(escrow: int, perRemote: seq<RemoteLiability>): GateBResult {
    var floor, ceil := FloorTotal(perRemote), CeilTotal(perRemote);
    GateBResult(if escrow - ceil >= 0 then Covered else Shortfall,
                [if escrow - ceil >= 0 then ACC_B00_COVERAGE_SUFFICIENT else ACC_B01_COVERAGE_SHORTFALL],
                escrow, floor, ceil, ceil - floor, escrow - ceil, perRemote)
  }

  function EvaluatedB(input: ProofInput, gateAPassed: bool): GateBResult {
    if !gateAPassed then NotDecided(ACC_B03_GATE_A_NOT_PASSED)
    else if input.untrackedRemotes != [] then NotDecided(ACC_B02_UNTRACKED_REMOTE_LIABILITY)
    else if input.census != CompleteFromDeploymentBlock then NotDecided(ACC_I03_CENSUS_INCOMPLETE)
    else if input.homeEscrow.escrowBalance.None? || input.homeEscrow.homePin.None? then NotDecided(ACC_I07_MISSING_OBSERVATION)
    else
      match Liabilities(input.remotes)
      case Stopped(reason) => NotDecided(reason)
      case AllOf(perRemote) => Compared(input.homeEscrow.escrowBalance.value, perRemote)
  }

  method EvaluateGateB(input: ProofInput, gateAPassed: bool) returns (result: GateBResult)
    ensures result == EvaluatedB(input, gateAPassed)
  {
    if !gateAPassed { return NotDecided(ACC_B03_GATE_A_NOT_PASSED); }
    if input.untrackedRemotes != [] { return NotDecided(ACC_B02_UNTRACKED_REMOTE_LIABILITY); }
    if input.census != CompleteFromDeploymentBlock { return NotDecided(ACC_I03_CENSUS_INCOMPLETE); }
    if input.homeEscrow.escrowBalance.None? || input.homeEscrow.homePin.None? { return NotDecided(ACC_I07_MISSING_OBSERVATION); }
    var perRemote: seq<RemoteLiability> := [];
    var remotes := input.remotes;
    for i := 0 to |remotes|
      invariant Liabilities(remotes[..i]) == AllOf(perRemote)
    {
      PrefixStep(remotes, i);
      var l := LiabilityOf(remotes[i]);
      if l.Refused? {
        StopIsFinal(remotes, i + 1);
        return NotDecided(l.reason);
      }
      perRemote := perRemote + [l.value];
    }
    assert remotes[..|remotes|] == remotes;
    result := Compared(input.homeEscrow.escrowBalance.value, perRemote);
  }

  lemma {:induction false} StopIsFinal(remotes: seq<RemoteObservation>, n: nat)
    requires n <= |remotes| && Liabilities(remotes[..n]).Stopped?
    ensures Liabilities(remotes) == Liabilities(remotes[..n])
  {
    if n == |remotes| {
      assert remotes[..n] == remotes;
    } else {
      assert remotes[..|remotes| - 1][..n] == remotes[..n];
      StopIsFinal(remotes[..|remotes| - 1], n);
    }
  }

  // ---- dust

  function DividingRemotes(remotes: seq<RemoteObservation>): nat {
    if remotes == [] then 0
    else DividingRemotes(remotes[..|remotes| - 1]) + (if remotes[|remotes| - 1].scale.multiplyOnRemote then 1 else 0)
  }

  /** Dust is real but bounded: at most one home unit for each remote whose conversion divides. */
  lemma LiabilitiesPush(remotes: seq<RemoteObservation>)
    requires remotes != [] && Liabilities(remotes).AllOf?
    ensures var n := |remotes| - 1;
            && Liabilities(remotes[..n]).AllOf? && LiabilityOf(remotes[n]).Liability?
            && Liabilities(remotes).liabilities == Liabilities(remotes[..n]).liabilities + [LiabilityOf(remotes[n]).value]
  {
  }

  lemma TotalsPush(front: seq<RemoteLiability>, l: RemoteLiability)
    ensures CeilTotal(front + [l]) == CeilTotal(front) + l.ceilHomeUnits
    ensures FloorTotal(front + [l]) == FloorTotal(front) + l.floorHomeUnits
  {
    assert (front + [l])[..|front|] == front;
  }

  lemma DustOfOne(r: RemoteObservation)
    requires LiabilityOf(r).Liability?
    ensures 0 <= LiabilityOf(r).value.ceilHomeUnits - LiabilityOf(r).value.floorHomeUnits <= if r.scale.multiplyOnRemote then 1 else 0
  {
  }

  lemma {:induction false} DustBounded(remotes: seq<RemoteObservation>)
    requires Liabilities(remotes).AllOf?
    ensures var l := Liabilities(remotes).liabilities;
            0 <= CeilTotal(l) - FloorTotal(l) <= DividingRemotes(remotes)
  {
    if remotes != [] {
      var n := |remotes| - 1;
      LiabilitiesPush(remotes);
      DustBounded(remotes[..n]);
      DustOfOne(remotes[n]);
      TotalsPush(Liabilities(remotes[..n]).liabilities, LiabilityOf(remotes[n]).value);
    }
  }

  // ---- coverage is kept by every transfer

  /** The home side of a bridge: the escrow, and what each remote was credited. */
  datatype Account = Account(balance: int, tokenMultiplier: int, multiplyOnRemote: bool)

  datatype Escrow = Escrow(held: int, accounts: seq<Account>)

  datatype Transfer =
    | Deposit(index: nat, homeAmount: int)
    | Redeem(index: nat, remoteAmount: int)
    | Donate(homeAmount: int)

  function CeilOf(a: Account): int {
    match ToHomeUnits(a.balance, a.tokenMultiplier, a.multiplyOnRemote)
    case Units(_, ceil) => ceil
    case NoUnits(_) => 0
  }

  predicate Convertible(a: Account) {
    ToHomeUnits(a.balance, a.tokenMultiplier, a.multiplyOnRemote).Units?
  }

  predicate AllConvertible(accounts: seq<Account>) {
    forall i :: 0 <= i < |accounts| ==> Convertible(accounts[i])
  }

  function CeilSum(accounts: seq<Account>): int {
    if accounts == [] then 0 else CeilSum(accounts[..|accounts| - 1]) + CeilOf(accounts[|accounts| - 1])
  }

  /** Every liability converts, and the escrow covers their rounded-up sum. */
  predicate IsCovered(e: Escrow) {
    0 <= e.held <= MAX_UINT256 && AllConvertible(e.accounts) && CeilSum(e.accounts) <= e.held
  }

  /** What the contracts do, or a revert. Balances are `uint256`. */
  function Apply(e: Escrow, t: Transfer): Option<Escrow> {
    match t
    case Deposit(i, h) =>
      if i >= |e.accounts| then None
      else
        var a := e.accounts[i];
        (match ApplyTokenScale(a.tokenMultiplier, a.multiplyOnRemote, h)
         case Failed(_) => None
         case Ok(credit) =>
           if a.balance + credit > MAX_UINT256 || e.held + h > MAX_UINT256 then None
           else Some(Escrow(e.held + h, e.accounts[i := a.(balance := a.balance + credit)])))
    case Redeem(i, r) =>
      if i >= |e.accounts| || r > e.accounts[i].balance then None
      else
        var a := e.accounts[i];
        (match RemoveTokenScale(a.tokenMultiplier, a.multiplyOnRemote, r)
         case Failed(_) => None
         case Ok(paid) =>
           if paid > e.held then None
           else Some(Escrow(e.held - paid, e.accounts[i := a.(balance := a.balance - r)])))
    case Donate(h) => if h < 0 || e.held + h > MAX_UINT256 then None else Some(Escrow(e.held + h, e.accounts))
  }

  /** A reverted transfer changes nothing. */
  function Settle(e: Escrow, ts: seq<Transfer>): Escrow {
    if ts == [] then e
    else
      var before := Settle(e, ts[..|ts| - 1]);
      match Apply(before, ts[|ts| - 1])
      case None => before
      case Some(after) => after
  }

  lemma {:induction false} CeilSumUpdate(accounts: seq<Account>, i: nat, a: Account)
    requires i < |accounts|
    ensures CeilSum(accounts[i := a]) == CeilSum(accounts) - CeilOf(accounts[i]) + CeilOf(a)
  {
    var n := |accounts| - 1;
    if i == n {
      assert accounts[i := a][..n] == accounts[..n];
    } else {
      assert accounts[i := a][..n] == accounts[..n][i := a];
      CeilSumUpdate(accounts[..n], i, a);
    }
  }

  lemma CeilProperty(a: int, m: int)
    requires a >= 0 && m > 0
    ensures var u := ToHomeUnits(a, m, true); u.Units? && m * u.ceil - m < a <= m * u.ceil
  {
    DivRemainder(a, m);
  }

  lemma CeilUnique(a: int, m: int, c: int)
    requires a >= 0 && m > 0 && m * c - m < a <= m * c
    ensures ToHomeUnits(a, m, true).ceil == c
  {
    CeilProperty(a, m);
    var k := ToHomeUnits(a, m, true).ceil;
    LeastCover(a, m, k, c);
    LeastCover(a, m, c, k);
  }

  lemma DepositMultiplied(b: int, m: int, h: int)
    requires b >= 0 && m > 0 && h >= 0
    ensures h * m >= 0 && ToHomeUnits(b + h * m, m, true) == Units((b + h * m) / m, ToHomeUnits(b, m, true).ceil + h)
  {
    var c := ToHomeUnits(b, m, true).ceil;
    CeilProperty(b, m);
    assert m * (c + h) == m * c + m * h;
    assert h * m == m * h;
    MulNonNegative(h, m);
    CeilUnique(b + h * m, m, c + h);
  }

  lemma DepositDivided(b: int, m: int, h: int)
    requires b >= 0 && m > 0 && h >= 0
    ensures (b + h / m) * m <= b * m + h
  {
    DivRemainder(h, m);
    assert (b + h / m) * m == b * m + (h / m) * m;
    assert (h / m) * m == m * (h / m);
  }

  /** The account after a deposit was credited. */
  function Credited(a: Account, credit: int): Account {
    a.(balance := a.balance + credit)
  }

  /** A deposit of h home units raises the liability of its remote by no more than h. */
  predicate RaisedByAtMost(a: Account, credit: int, h: int) {
    credit >= 0 && (CeilOf(a) + h <= MAX_UINT256 ==> Convertible(Credited(a, credit)) && CeilOf(Credited(a, credit)) <= CeilOf(a) + h)
  }

  lemma DepositRaisesMultiplied(a: Account, h: int)
    requires Convertible(a) && a.multiplyOnRemote && a.tokenMultiplier > 0 && h >= 0
    ensures RaisedByAtMost(a, h * a.tokenMultiplier, h)
  {
    DepositMultiplied(a.balance, a.tokenMultiplier, h);
  }

  lemma DepositRaisesDivided(a: Account, h: int)
    requires Convertible(a) && !a.multiplyOnRemote && a.tokenMultiplier > 0 && h >= 0
    ensures RaisedByAtMost(a, h / a.tokenMultiplier, h)
  {
    DepositDivided(a.balance, a.tokenMultiplier, h);
    DivRemainder(h, a.tokenMultiplier);
  }

  lemma RedeemDivided(b: int, m: int, r: int)
    requires 0 <= r <= b && m > 0
    ensures ToHomeUnits(b - r, m, true).Units? && ToHomeUnits(b - r, m, true).ceil <= ToHomeUnits(b, m, true).ceil - r / m
  {
    CeilProperty(b, m);
    CeilProperty(b - r, m);
    DivRemainder(r, m);
    var c, paid := ToHomeUnits(b, m, true).ceil, r / m;
    assert m * (c - paid) == m * c - m * paid;
    LeastCover(b - r, m, c - paid, ToHomeUnits(b - r, m, true).ceil);
  }

  lemma RedeemMultiplied(b: int, m: int, r: int)
    requires 0 <= r <= b && m >= 0
    ensures 0 <= (b - r) * m == b * m - r * m <= b * m
  {
    MulNonNegative(r, m);
    MulNonNegative(b - r, m);
  }

  /** A redemption lowers the liability of its remote by at least what it pays. */
  lemma RedeemLowersLiability(a: Account, r: int)
    requires Convertible(a) && 0 <= r <= a.balance && RemoveTokenScale(a.tokenMultiplier, a.multiplyOnRemote, r).Ok?
    ensures var paid := RemoveTokenScale(a.tokenMultiplier, a.multiplyOnRemote, r).value;
            var a' := a.(balance := a.balance - r);
            Convertible(a') && CeilOf(a') <= CeilOf(a) - paid
  {
    if a.multiplyOnRemote {
      RedeemDivided(a.balance, a.tokenMultiplier, r);
    } else {
      RedeemMultiplied(a.balance, a.tokenMultiplier, r);
    }
  }

  lemma MulNonNegative(a: int, b: int)
    requires a >= 0 && b >= 0
    ensures a * b >= 0
  {
  }

  lemma {:induction false} CeilSumBounds(accounts: seq<Account>, i: nat)
    requires AllConvertible(accounts)
    requires i < |accounts|
    ensures 0 <= CeilOf(accounts[i]) <= CeilSum(accounts)
  {
    var n := |accounts| - 1;
    CeilNonNegative(accounts[..n]);
    ConvertibleNonNegative(accounts[n]);
    if i < n {
      CeilSumBounds(accounts[..n], i);
    }
  }

  lemma {:induction false} CeilNonNegative(accounts: seq<Account>)
    requires AllConvertible(accounts)
    ensures CeilSum(accounts) >= 0
  {
    if accounts != [] {
      CeilNonNegative(accounts[..|accounts| - 1]);
      ConvertibleNonNegative(accounts[|accounts| - 1]);
    }
  }

  lemma ConvertibleNonNegative(a: Account)
    requires Convertible(a)
    ensures CeilOf(a) >= 0
  {
    if a.multiplyOnRemote {
      DivRemainder(a.balance, a.tokenMultiplier);
    } else {
      MulNonNegative(a.balance, a.tokenMultiplier);
    }
  }

  lemma DepositKeepsCover(e: Escrow, i: nat, h: int)
    requires IsCovered(e) && Apply(e, Deposit(i, h)).Some?
    ensures IsCovered(Apply(e, Deposit(i, h)).value)
  {
    var a := e.accounts[i];
    var credit := ApplyTokenScale(a.tokenMultiplier, a.multiplyOnRemote, h).value;
    if a.multiplyOnRemote {
      DepositRaisesMultiplied(a, h);
    } else {
      DepositRaisesDivided(a, h);
    }
    CeilSumUpdate(e.accounts, i, Credited(a, credit));
    CeilSumBounds(e.accounts, i);
  }

  /** The account holds that much, and it has a value in home units. */
  predicate Redeemable(e: Escrow, i: nat, r: int) {
    i < |e.accounts| && 0 <= r <= e.accounts[i].balance && RemoveTokenScale(e.accounts[i].tokenMultiplier, e.accounts[i].multiplyOnRemote, r).Ok?
  }

  /** A covered escrow can pay any one redemption in full, up to what the account holds. */
  lemma CoveredCanPay(e: Escrow, i: nat, r: int)
    requires IsCovered(e) && Redeemable(e, i, r)
    ensures Apply(e, Redeem(i, r)).Some?
  {
    var a := e.accounts[i];
    RedeemLowersLiability(a, r);
    ConvertibleNonNegative(a.(balance := a.balance - r));
    CeilSumBounds(e.accounts, i);
  }

  lemma RedeemKeepsCover(e: Escrow, i: nat, r: int)
    requires IsCovered(e) && Apply(e, Redeem(i, r)).Some?
    ensures IsCovered(Apply(e, Redeem(i, r)).value)
  {
    var a := e.accounts[i];
    RedeemLowersLiability(a, r);
    CeilSumUpdate(e.accounts, i, a.(balance := a.balance - r));
    var paid := RemoveTokenScale(a.tokenMultiplier, a.multiplyOnRemote, r).value;
    assert paid >= 0 by {
      if a.multiplyOnRemote { DivRemainder(r, a.tokenMultiplier); } else { MulNonNegative(r, a.tokenMultiplier); }
    }
  }

  // Coverage is inductive: it survives every finite sequence of deposits, redemptions and donations, for any
  // remotes and any multipliers, reverted ones included.
  lemma {:induction false} CoverageIsInductive(e: Escrow, ts: seq<Transfer>)
    requires IsCovered(e)
    ensures IsCovered(Settle(e, ts))
  {
    if ts != [] {
      var n := |ts| - 1;
      CoverageIsInductive(e, ts[..n]);
      var before := Settle(e, ts[..n]);
      if Apply(before, ts[n]).Some? {
        match ts[n]
        case Deposit(i, h) => DepositKeepsCover(before, i, h);
        case Redeem(i, r) => RedeemKeepsCover(before, i, r);
        case Donate(_) =>
      }
    }
  }

  /** So after any transfers at all, no holder's redemption ever fails for want of escrow. */
  lemma AlwaysCanPay(e: Escrow, ts: seq<Transfer>, i: nat, r: int)
    requires IsCovered(e)
    ensures Redeemable(Settle(e, ts), i, r) ==> Apply(Settle(e, ts), Redeem(i, r)).Some?
  {
    CoverageIsInductive(e, ts);
    if Redeemable(Settle(e, ts), i, r) {
      CoveredCanPay(Settle(e, ts), i, r);
    }
  }

  /** The gate input that observes this escrow. */
  predicate Observes(input: ProofInput, e: Escrow) {
    && input.untrackedRemotes == [] && input.census == CompleteFromDeploymentBlock
    && input.homeEscrow.escrowBalance == Some(e.held) && input.homeEscrow.homePin.Some?
    && ObservesAccounts(input.remotes, e.accounts)
  }

  predicate ObservesAccounts(remotes: seq<RemoteObservation>, accounts: seq<Account>) {
    && |remotes| == |accounts|
    && forall i :: 0 <= i < |accounts| ==>
         && remotes[i].transferredBalance == Some(accounts[i].balance)
         && remotes[i].scale.tokenMultiplier == accounts[i].tokenMultiplier
         && remotes[i].scale.multiplyOnRemote == accounts[i].multiplyOnRemote
  }

  lemma LiabilityOfAccount(r: RemoteObservation, a: Account)
    requires r.transferredBalance == Some(a.balance)
    requires r.scale.tokenMultiplier == a.tokenMultiplier && r.scale.multiplyOnRemote == a.multiplyOnRemote
    ensures LiabilityOf(r).Liability? <==> Convertible(a)
    ensures Convertible(a) ==> LiabilityOf(r).value.ceilHomeUnits == CeilOf(a)
  {
  }

  lemma ConvertiblePush(accounts: seq<Account>)
    requires accounts != []
    ensures AllConvertible(accounts) <==> AllConvertible(accounts[..|accounts| - 1]) && Convertible(accounts[|accounts| - 1])
  {
    var n := |accounts| - 1;
    assert forall i :: 0 <= i < n ==> accounts[..n][i] == accounts[i];
  }

  lemma {:induction false} LiabilitiesOfAccounts(remotes: seq<RemoteObservation>, accounts: seq<Account>)
    requires ObservesAccounts(remotes, accounts)
    ensures Liabilities(remotes).AllOf? <==> AllConvertible(accounts)
    ensures Liabilities(remotes).AllOf? ==> CeilTotal(Liabilities(remotes).liabilities) == CeilSum(accounts)
  {
    if remotes != [] {
      var n := |remotes| - 1;
      LiabilitiesOfAccounts(remotes[..n], accounts[..n]);
      LiabilityOfAccount(remotes[n], accounts[n]);
      ConvertiblePush(accounts);
      if Liabilities(remotes).AllOf? {
        LiabilitiesPush(remotes);
        TotalsPush(Liabilities(remotes[..n]).liabilities, LiabilityOf(remotes[n]).value);
      }
    }
  }

  lemma ComparedOrNot(input: ProofInput, e: Escrow)
    requires Observes(input, e)
    ensures EvaluatedB(input, true) ==
            match Liabilities(input.remotes)
            case Stopped(reason) => NotDecided(reason)
            case AllOf(l) => Compared(e.held, l)
  {
  }

  /** The gate reports coverage exactly when the escrow it observes is covered. */
  lemma GateBMeaning(input: ProofInput, e: Escrow)
    requires Observes(input, e) && 0 <= e.held <= MAX_UINT256
    ensures EvaluatedB(input, true).outcome == Covered <==> IsCovered(e)
    ensures EvaluatedB(input, true).outcome == Shortfall <==>
            AllConvertible(e.accounts) && e.held < CeilSum(e.accounts)
  {
    LiabilitiesOfAccounts(input.remotes, e.accounts);
    ComparedOrNot(input, e);
  }

  /** Once Gate B has passed, it passes after every finite sequence of transfers. */
  lemma OnceCoveredAlwaysCovered(before: ProofInput, e: Escrow, ts: seq<Transfer>, after: ProofInput)
    requires Observes(before, e) && 0 <= e.held <= MAX_UINT256 && EvaluatedB(before, true).outcome == Covered
    requires Observes(after, Settle(e, ts))
    ensures EvaluatedB(after, true).outcome == Covered
  {
    GateBMeaning(before, e);
    CoverageIsInductive(e, ts);
    GateBMeaning(after, Settle(e, ts));
  }
}
