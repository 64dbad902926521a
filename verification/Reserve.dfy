/** What the gas policy guarantees over whole runs of one account. Operations run
    one at a time: each is decided on the balances the last one left. */
module Reserve {
  import opened Types
  import opened Gas

  datatype Account = Account(gas: int, token: int)

  datatype Op =
    | Payment(amount: int, feeCap: int, cost: int)
    | Delivered(pending: int, feeCap: int, quote: int, spent: int, cost: int)
    | Deposit(amount: int)
    | Fund(native: int)

  /** What the rail prices a refill at: the fee cap for its gas limit. */
  function Price(p: GasPolicy, feeCap: int): int {
    feeCap * p.GasLimit(Kind.Refill)
  }

  /** The highest fee cap, and the dearest price, at which a refill is still made. */
  function TopCap(p: GasPolicy): int {
    p.feeBound / p.GasLimit(Kind.Refill)
  }

  function Dearest(p: GasPolicy): int {
    Price(p, TopCap(p))
  }

  function Input(p: GasPolicy, a: Account, feeCap: int, quote: Option<int>, pending: int): PolicyInput {
    PolicyInput(a.gas, a.token, Price(p, feeCap), quote, pending)
  }

  /** A payment of a positive amount runs when the policy says execute, and costs at
      most `bound`. A refill runs when the policy says refill at the price of that
      moment, and delivers what it was sized for then. What it finally costs is bounded
      only by the fee bound and by what is held: a stuck refill is retried at higher
      fees than it was sized at. */
  predicate Allowed(p: GasPolicy, bound: int, a: Account, op: Op) {
    match op
    case Payment(amount, feeCap, cost) =>
      && Decide(p, Input(p, a, feeCap, None, amount)).Execute?
      && 0 < amount && 1 <= feeCap && 0 <= cost <= bound && cost <= a.gas
    case Delivered(pending, feeCap, quote, spent, cost) =>
      && 1 <= feeCap && 0 < quote && 0 <= cost <= p.feeBound && cost <= a.gas
      && var d := Decide(p, Input(p, a, feeCap, Some(quote), pending));
         d.Buy? && 0 <= spent <= d.maxInput
    case Deposit(amount) => 0 <= amount
    case Fund(native) => 0 <= native
  }

  function After(p: GasPolicy, a: Account, op: Op): Account {
    match op
    case Payment(amount, _, cost) => Account(a.gas - cost, a.token - amount)
    case Delivered(pending, feeCap, quote, spent, cost) =>
      Account(a.gas - cost + (p.max - (a.gas - Price(p, feeCap))), a.token - spent)
    case Deposit(amount) => Account(a.gas, a.token + amount)
    case Fund(native) => Account(a.gas + native, a.token)
  }

  ghost predicate Legal(p: GasPolicy, bound: int, a: Account, ops: seq<Op>)
    decreases |ops|
  {
    ops != [] ==> Allowed(p, bound, a, ops[0]) && Legal(p, bound, After(p, a, ops[0]), ops[1..])
  }

  ghost function End(p: GasPolicy, a: Account, ops: seq<Op>): Account
    decreases |ops|
  {
    if ops == [] then a else End(p, After(p, a, ops[0]), ops[1..])
  }

  /** From a reserve that can pay for any refill the policy would make, no run leads to
      a state where the policy answers NeedNative, whatever the fees and the payment. */
  ghost predicate NeverStrands(p: GasPolicy, bound: int) {
    forall a: Account, ops: seq<Op>, feeCap: int, quote: Option<int>, pending: int
      {:trigger Decide(p, Input(p, End(p, a, ops), feeCap, quote, pending)), Legal(p, bound, a, ops)} ::
      a.gas >= Dearest(p) && Legal(p, bound, a, ops) && feeCap >= 1 ==>
        Decide(p, Input(p, End(p, a, ops), feeCap, quote, pending)) != Wait(NeedNative)
  }

  /** Either no refill is ever cheap enough to make; or the minimum covers a payment and
      the refill after it, and the maximum covers a refill that was sized at the lowest
      price and paid for at the highest that could be held below the minimum. */
  predicate Sufficient(p: GasPolicy, bound: int) {
    var limit, m := p.GasLimit(Kind.Refill), Dearest(p);
    m == 0 || (p.min >= bound + m && (p.min > m ==> p.max + limit >= m + Min(p.feeBound, p.min - 1)))
  }

  function Min(a: int, b: int): int { if a <= b then a else b }

  /** A fee cap up to the top one is within the fee bound, and none above it is. */
  lemma TopCapIsGreatest(p: GasPolicy, feeCap: int)
    requires p.Valid() && 1 <= feeCap
    ensures 0 <= TopCap(p) && 0 <= Dearest(p) <= p.feeBound && (TopCap(p) == 0 <==> Dearest(p) == 0)
    ensures Price(p, feeCap) <= p.feeBound <==> feeCap <= TopCap(p)
    ensures feeCap <= TopCap(p) <==> Price(p, feeCap) <= Dearest(p)
    ensures p.GasLimit(Kind.Refill) <= Price(p, feeCap)
  {
    var l := p.GasLimit(Kind.Refill);
    var k := TopCap(p);
    assert p.feeBound == l * k + p.feeBound % l;
    MulLeft(l, 1, feeCap);
    if feeCap <= k { MulLeft(l, feeCap, k); } else { MulLeft(l, k + 1, feeCap); }
  }

  /** Below the dearest price the policy answers NeedNative at the top fee cap. */
  lemma BelowDearest(p: GasPolicy, a: Account)
    requires p.Valid() && 0 <= a.gas < Dearest(p) && 0 <= a.token
    ensures TopCap(p) >= 1 && Decide(p, Input(p, a, TopCap(p), None, 0)) == Wait(NeedNative)
  {
    TopCapIsGreatest(p, 1);
    TopCapIsGreatest(p, TopCap(p));
  }

  /** NeedNative is answered at some price exactly below the dearest: at that level or
      above, the reserve can pay for every refill the policy would make. */
  lemma StrandedExactly(p: GasPolicy, a: Account)
    requires p.Valid() && 0 <= a.gas && 0 <= a.token
    ensures a.gas < Dearest(p) <==>
              exists feeCap :: feeCap >= 1 && Decide(p, Input(p, a, feeCap, None, 0)) == Wait(NeedNative)
  {
    if a.gas < Dearest(p) {
      BelowDearest(p, a);
    }
    forall feeCap | feeCap >= 1 && Decide(p, Input(p, a, feeCap, None, 0)) == Wait(NeedNative)
      ensures a.gas < Dearest(p)
    {
      TopCapIsGreatest(p, feeCap);
    }
  }

  /** One operation leaves the reserve able to pay for the next refill. */
  lemma OneOpHolds(p: GasPolicy, bound: int, a: Account, op: Op)
    requires p.Valid() && Sufficient(p, bound)
    requires a.gas >= Dearest(p) && Allowed(p, bound, a, op)
    ensures After(p, a, op).gas >= Dearest(p)
    ensures a.token >= 0 && (op.Delivered? ==> op.pending >= 0) ==> After(p, a, op).token >= 0
  {
    if op.Delivered? || op.Payment? { TopCapIsGreatest(p, op.feeCap); }
  }

  /** The reserve stays able to pay for its own refill along every run, and the money
      is never overdrawn. */
  lemma {:induction false} ReserveHolds(p: GasPolicy, bound: int, a: Account, ops: seq<Op>)
    requires p.Valid() && Sufficient(p, bound)
    requires a.gas >= Dearest(p) && Legal(p, bound, a, ops)
    ensures End(p, a, ops).gas >= Dearest(p)
    ensures a.token >= 0 && (forall op :: op in ops && op.Delivered? ==> op.pending >= 0) ==> End(p, a, ops).token >= 0
    decreases |ops|
  {
    if ops != [] {
      var op := ops[0];
      assert op in ops;
      assert forall o :: o in ops[1..] ==> o in ops;
      OneOpHolds(p, bound, a, op);
      ReserveHolds(p, bound, After(p, a, op), ops[1..]);
    }
  }

  /** One operation that leaves less is enough to strand. */
  lemma OneOpStrands(p: GasPolicy, bound: int, a: Account, op: Op)
    requires p.Valid() && a.gas >= Dearest(p) && Allowed(p, bound, a, op)
    requires 0 <= After(p, a, op).gas < Dearest(p) && After(p, a, op).token >= 0
    ensures !NeverStrands(p, bound)
  {
    var ops, b := [op], After(p, a, op);
    assert ops[1..] == [];
    assert Legal(p, bound, b, ops[1..]) && Legal(p, bound, a, ops);
    assert End(p, a, ops) == End(p, b, ops[1..]) == b;
    BelowDearest(p, b);
    assert Decide(p, Input(p, End(p, a, ops), TopCap(p), None, 0)) == Wait(NeedNative);
  }

  /** The reserve never strands, over all runs, exactly when it is sufficient. Validate
      alone asks only that the minimum cover a refill. */
  lemma NeverStrandsExactly(p: GasPolicy, bound: int)
    requires p.Valid() && 0 <= bound
    ensures NeverStrands(p, bound) <==> Sufficient(p, bound)
  {
    if Sufficient(p, bound) {
      forall a: Account, ops: seq<Op>, feeCap: int, quote: Option<int>, pending: int
        | a.gas >= Dearest(p) && Legal(p, bound, a, ops) && feeCap >= 1
        ensures Decide(p, Input(p, End(p, a, ops), feeCap, quote, pending)) != Wait(NeedNative)
      {
        ReserveHolds(p, bound, a, ops);
        TopCapIsGreatest(p, feeCap);
      }
    } else {
      InsufficientStrands(p, bound);
    }
  }

  /** Where it is not, one payment or one retried refill does it. */
  lemma InsufficientStrands(p: GasPolicy, bound: int)
    requires p.Valid() && 0 <= bound && !Sufficient(p, bound)
    ensures !NeverStrands(p, bound)
  {
    TopCapIsGreatest(p, 1);
    if p.min < bound + Dearest(p) {
      // Pay one unit from exactly the minimum, at the highest cost the account can bear.
      OneOpStrands(p, bound, Account(p.min, 1), Payment(1, 1, Min(bound, p.min)));
    } else {
      // Refill from just below the minimum, sized at the lowest price, paid for at the highest.
      OneOpStrands(p, bound, Account(p.min - 1, WithSlippage(1, p.slippageBps)),
                   Delivered(0, 1, 1, 0, Min(p.feeBound, p.min - 1)));
    }
  }

  /** Covering a payment and a refill with the minimum is not enough. At the default gas
      limit and a fee cap of 3 a refill is decided on, retried up to a cap of 300, and
      delivered; what is left cannot pay for the next one. */
  lemma RetriedRefillStrands() returns (p: GasPolicy, a: Account, op: Op)
    ensures p == GasPolicy(240_000_000, 252_000_000, 0, 180_000_000, 0, 0) && a == Account(216_000_000, 1)
    ensures op == Delivered(0, 3, 1, 0, Price(p, 300))
    ensures p.Valid() && p.min >= 60_000_000 + p.feeBound && a.gas >= Dearest(p) && Allowed(p, 60_000_000, a, op)
    ensures After(p, a, op) == Account(73_800_000, 1)
    ensures Decide(p, Input(p, After(p, a, op), 300, None, 0)) == Wait(NeedNative)
    ensures !Sufficient(p, 60_000_000)
  {
    hide TopCap, Price, Dearest, WithSlippage, Sufficient, Allowed, Decide;
    p, a := GasPolicy(240_000_000, 252_000_000, 0, 180_000_000, 0, 0), Account(216_000_000, 1);
    op := Delivered(0, 3, 1, 0, Price(p, 300));
    DefaultPrices(p);
    DefaultRefill(p, a, op);
    BelowDearest(p, After(p, a, op));
    TooLittleForRetry(p, 60_000_000);
  }

  lemma DefaultRefill(p: GasPolicy, a: Account, op: Op)
    requires p == GasPolicy(240_000_000, 252_000_000, 0, 180_000_000, 0, 0) && a == Account(216_000_000, 1)
    requires op == Delivered(0, 3, 1, 0, 180_000_000)
    ensures Allowed(p, 60_000_000, a, op) && After(p, a, op) == Account(73_800_000, 1)
  {
    hide Price, WithSlippage;
    DefaultPrices(p);
    assert WithSlippage(1, 0) == 1 by { SlippageIsLeast(1, 0, 1); SlippageIsLeast(1, 0, 0); }
    assert Decide(p, Input(p, a, 3, Some(1), 0)) == Buy(252_000_000 - (216_000_000 - 1_800_000), 1);
  }

  /** A maximum that does not cover a refill sized low and paid for high. */
  lemma TooLittleForRetry(p: GasPolicy, bound: int)
    requires p.feeBound == Dearest(p) < p.min && 0 < Dearest(p)
    requires p.max + p.GasLimit(Kind.Refill) < 2 * p.feeBound
    ensures !Sufficient(p, bound)
  {
    hide Dearest;
  }

  lemma DefaultPrices(p: GasPolicy)
    requires p.swapGas == 0 && p.feeBound == 180_000_000
    ensures p.GasLimit(Kind.Refill) == 600_000 && TopCap(p) == 300
    ensures Price(p, 3) == 1_800_000 && Price(p, 300) == Dearest(p) == 180_000_000
  {
  }

  /** Delivery is needed: from any reserve that a refill's fee could empty, a refill
      that reverts burns its cost and strands the account. */
  lemma RevertedRefillStrands(p: GasPolicy, a: Account, quote: int)
    requires p.Valid() && 0 < a.gas == Dearest(p) < p.min && 0 <= WithSlippage(quote, p.slippageBps) <= a.token
    ensures Decide(p, Input(p, a, TopCap(p), Some(quote), 0)).Buy?
    ensures var burnt := Account(a.gas - Dearest(p), a.token);
            Decide(p, Input(p, burnt, TopCap(p), None, 0)) == Wait(NeedNative)
  {
    TopCapIsGreatest(p, 1);
    TopCapIsGreatest(p, TopCap(p));
  }
}
