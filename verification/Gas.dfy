/** What the reserve policy (go/rail/gas.go) decides, and what each decision promises. */
module Gas {
  import opened Types

  datatype Reason = NeedToken | NeedNative | FeesTooHigh

  /** Amounts the caller left out count as zero; the quote alone is optional. */
  datatype PolicyInput = PolicyInput(gas: int, token: int, swapCost: int, quote: Option<int>, pending: int)

  datatype Decision =
    | Execute
    | Quote(delta: int)
    | Buy(delta: int, maxInput: int)
    | Wait(reason: Reason)

  function Decide(p: GasPolicy, i: PolicyInput): Decision {
    if i.token < i.pending then Wait(NeedToken)
    else if i.gas >= p.min then Execute
    else if i.swapCost > p.feeBound then Wait(FeesTooHigh)
    else if i.gas < i.swapCost then Wait(NeedNative)
    else
      var delta := p.max - (i.gas - i.swapCost);
      if i.quote.None? then Quote(delta)
      else
        var maxInput := WithSlippage(i.quote.value, p.slippageBps);
        if i.token < maxInput + i.pending then Wait(NeedToken)
        else Buy(delta, maxInput)
  }

  /** The error a shortage is reported as. */
  function ReasonError(r: Reason): Error {
    match r
    case NeedToken => InsufficientStablecoin
    case NeedNative => InsufficientNative
    case FeesTooHigh => FeesAboveBound
  }

  function WithSlippage(quote: int, bps: nat): int {
    quote + (quote * bps + 9_999) / 10_000
  }

  /** The bound is the least integer at least quote * (1 + bps/10000). */
  lemma SlippageIsLeast(quote: int, bps: nat, x: int)
    ensures x >= WithSlippage(quote, bps) <==> 10_000 * x >= quote * (10_000 + bps)
  {
    var margin := quote * bps;
    assert quote * (10_000 + bps) == 10_000 * quote + margin;
  }

  /** When each answer is given, in full: a payment runs only from at or above the
      minimum; a refill is affordable in both currencies, worth making, leaves the
      pending payment untouched, restores the maximum, and may spend the least integer
      that covers the quote and its slippage, no more. */
  lemma DecisionsAreSafe(p: GasPolicy, i: PolicyInput)
    requires p.Valid() && 0 <= i.swapCost
    ensures Decide(p, i).Execute? <==> i.token >= i.pending && i.gas >= p.min
    ensures Decide(p, i) == Wait(FeesTooHigh) <==> i.token >= i.pending && i.gas < p.min && i.swapCost > p.feeBound
    ensures Decide(p, i) == Wait(NeedNative) <==>
              i.token >= i.pending && i.gas < p.min && i.gas < i.swapCost <= p.feeBound
    ensures Decide(p, i).Quote? <==> i.token >= i.pending && MayRefill(p, i) && i.quote.None?
    ensures Decide(p, i) == Wait(NeedToken) <==>
              || i.token < i.pending
              || (MayRefill(p, i) && i.quote.Some?
                  && 10_000 * (i.token - i.pending) < i.quote.value * (10_000 + p.slippageBps))
    ensures Decide(p, i).Buy? <==>
              && i.token >= i.pending && MayRefill(p, i) && i.quote.Some?
              && 10_000 * (i.token - i.pending) >= i.quote.value * (10_000 + p.slippageBps)
    ensures Decide(p, i).Quote? || Decide(p, i).Buy? ==>
              var d := Decide(p, i); d.delta > 0 && i.gas - i.swapCost + d.delta == p.max
    ensures Decide(p, i).Buy? ==>
              var d := Decide(p, i);
              && i.token - d.maxInput >= i.pending
              && 10_000 * d.maxInput >= i.quote.value * (10_000 + p.slippageBps) > 10_000 * (d.maxInput - 1)
  {
    if i.quote.Some? {
      var bound := WithSlippage(i.quote.value, p.slippageBps);
      SlippageIsLeast(i.quote.value, p.slippageBps, bound);
      SlippageIsLeast(i.quote.value, p.slippageBps, bound - 1);
      SlippageIsLeast(i.quote.value, p.slippageBps, i.token - i.pending);
    }
  }

  /** The reserve is low, and a refill costs no more than it holds and the bound. */
  predicate MayRefill(p: GasPolicy, i: PolicyInput) {
    i.swapCost <= i.gas < p.min && i.swapCost <= p.feeBound
  }

  /** One refill suffices. Once the policy asks for a quote, any quote yields a
      refill or a stablecoin shortage; and a refill delivered within its two
      bounds lands at or above the maximum, exactly there at full cost, with the
      pending payment still held and executable next. */
  lemma OneRefillSuffices(p: GasPolicy, i: PolicyInput, quote: int, spent: int, cost: int, nextSwapCost: int)
    requires p.Valid()
    requires i.quote.None? && Decide(p, i).Quote?
    ensures var d := Decide(p, i.(quote := Some(quote)));
            || d == Wait(NeedToken)
            || (d.Buy? && d.delta == Decide(p, i).delta
                && (spent <= d.maxInput && cost <= i.swapCost ==>
                      var gas := i.gas - cost + d.delta;
                      var token := i.token - spent;
                      && gas >= p.max
                      && (gas == p.max <==> cost == i.swapCost)
                      && token >= i.pending
                      && Decide(p, PolicyInput(gas, token, nextSwapCost, None, i.pending)) == Execute))
  {
  }

  function CeilDiv(a: int, b: int): int
    requires b > 0
  {
    (a + b - 1) / b
  }

  /** A ceiling is the least integer whose multiple reaches the numerator. */
  lemma CeilDivIsLeast(a: int, b: int, x: int)
    requires b > 0
    ensures x >= CeilDiv(a, b) <==> b * x >= a
  {
    var n := a + b - 1;
    var c := n / b;
    assert n == b * c + n % b;
    if x >= c {
      assert b * x >= b * c;
    } else {
      assert b * x <= b * (c - 1) == b * c - b;
    }
  }

  /** If the venue's price rises by at most `bps` between quote and execution, the
      input it then charges, rounded up, is still within the bound. */
  lemma SlippageCoversPriceRise(delta: int, unit: int, quoted: int, later: int, bps: nat)
    requires unit > 0 && delta >= 0 && quoted >= 0
    requires 10_000 * later <= quoted * (10_000 + bps)
    ensures CeilDiv(delta * later, unit) <= WithSlippage(CeilDiv(delta * quoted, unit), bps)
  {
    var q := CeilDiv(delta * quoted, unit);
    var x := WithSlippage(q, bps);
    CeilDivIsLeast(delta * quoted, unit, q);
    SlippageIsLeast(q, bps, x);
    // 10000 * delta * later <= delta * quoted * (10000 + bps) <= unit * q * (10000 + bps) <= 10000 * unit * x
    var s := 10_000 + bps;
    MulLeft(delta, 10_000 * later, quoted * s);
    MulLeft(s, delta * quoted, unit * q);
    MulLeft(unit, q * s, 10_000 * x);
    assert delta * (quoted * s) == s * (delta * quoted) by { Rearrange(delta, quoted, s); }
    assert s * (unit * q) == unit * (q * s) by { Rearrange(unit, q, s); }
    assert delta * (10_000 * later) == 10_000 * (delta * later);
    assert unit * (10_000 * x) == 10_000 * (unit * x);
    CeilDivIsLeast(delta * later, unit, x);
  }

  lemma MulLeft(k: int, a: int, b: int)
    requires k >= 0 && a <= b
    ensures k * a <= k * b
  {
  }

  lemma Rearrange(a: int, b: int, c: int)
    ensures a * (b * c) == c * (a * b)
  {
  }
}
