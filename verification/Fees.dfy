/** Retry fees (go/rail/rail.go): each attempt raises both fees by more than the
    eighth a node asks for, and nothing else. */
module Fees {
  import opened Types

  function Bump(v: int): (r: int)
    ensures 8 * r > 9 * v
    ensures 0 <= v ==> v < r
  {
    v * 9 / 8 + 1
  }

  function MaxInt(a: int, b: int): int {
    if a >= b then a else b
  }

  /** What a new attempt may carry, given the attempts already recorded. */
  predicate FeeRule(subs: seq<Submission>, s: Submission) {
    && 0 < s.tip <= s.feeCap
    && (subs != [] ==>
          var last := subs[|subs| - 1];
          s.gas == last.gas && Bump(last.tip) <= s.tip && Bump(last.feeCap) <= s.feeCap)
  }

  /** Every recorded attempt obeyed the rule when it was appended. */
  predicate Escalating(subs: seq<Submission>) {
    forall k {:trigger subs[k]} :: 0 <= k < |subs| ==> FeeRule(subs[..k], subs[k])
  }

  lemma EscalatingAppend(subs: seq<Submission>, s: Submission)
    requires Escalating(subs) && FeeRule(subs, s)
    ensures Escalating(subs + [s])
  {
    var all := subs + [s];
    forall k | 0 <= k < |all| ensures FeeRule(all[..k], all[k]) {
      if k < |subs| {
        assert all[..k] == subs[..k] && all[k] == subs[k];
      } else {
        assert all[..k] == subs;
      }
    }
  }

  /** The attempt Retry builds (rail.go:424-437): the node's price, or the last
      attempt's raised, whichever is more. */
  function RetryAttempt(subs: seq<Submission>, gasLimit: nat, tip: int, feeCap: int): (s: Submission)
    requires Escalating(subs)
    requires 0 < tip <= feeCap
    ensures FeeRule(subs, s) && s.txHash.ZeroHash?
  {
    if subs == [] then Submission(ZeroHash, gasLimit, tip, feeCap) else
      var last := subs[|subs| - 1];
      assert FeeRule(subs[..|subs| - 1], subs[|subs| - 1]);
      Submission(ZeroHash, last.gas, MaxInt(tip, Bump(last.tip)), MaxInt(feeCap, Bump(last.feeCap)))
  }

  /** A bump is the least integer more than nine eighths of the fee. */
  lemma BumpIsLeast(v: int, r: int)
    ensures r >= Bump(v) <==> 8 * r > 9 * v
  {
    assert 8 * (v * 9 / 8) + v * 9 % 8 == v * 9;
  }

  /** No cheaper attempt both meets the node's price and replaces the last one. */
  lemma RetryIsCheapest(subs: seq<Submission>, gasLimit: nat, tip: int, feeCap: int, s: Submission)
    requires Escalating(subs) && 0 < tip <= feeCap
    ensures var r := RetryAttempt(subs, gasLimit, tip, feeCap);
            && r.gas == (if subs == [] then gasLimit else subs[0].gas)
            && tip <= r.tip && feeCap <= r.feeCap
            && (FeeRule(subs, s) && tip <= s.tip && feeCap <= s.feeCap ==> r.tip <= s.tip && r.feeCap <= s.feeCap)
  {
    if subs != [] {
      GeometricGrowth(subs, |subs| - 1);
    }
  }

  /** Nothing holds a retry to the bound the first attempt was decided under: it stays
      within a bound exactly when both the node's price and the bumped last attempt
      do. */
  lemma RetryCostExactly(subs: seq<Submission>, gasLimit: nat, tip: int, feeCap: int, bound: int)
    requires Escalating(subs) && subs != [] && 0 < tip <= feeCap
    ensures var r, last := RetryAttempt(subs, gasLimit, tip, feeCap), subs[|subs| - 1];
            r.feeCap * r.gas <= bound <==> feeCap * last.gas <= bound && Bump(last.feeCap) * last.gas <= bound
  {
    var last := subs[|subs| - 1];
    assert FeeRule(subs[..|subs| - 1], last);
    Scaled(feeCap, Bump(last.feeCap), last.gas);
  }

  lemma Scaled(a: int, b: int, k: nat)
    ensures a <= b ==> a * k <= b * k
    ensures b <= a ==> b * k <= a * k
  {
  }

  function Pow(b: nat, e: nat): nat {
    if e == 0 then 1 else b * Pow(b, e - 1)
  }

  /** After k retries both fees have grown by at least (9/8)^k. */
  lemma {:induction false} GeometricGrowth(subs: seq<Submission>, k: nat)
    requires Escalating(subs) && k < |subs|
    ensures Pow(8, k) * subs[k].tip >= Pow(9, k) * subs[0].tip
    ensures Pow(8, k) * subs[k].feeCap >= Pow(9, k) * subs[0].feeCap
    ensures subs[k].gas == subs[0].gas
  {
    if k > 0 {
      GeometricGrowth(subs, k - 1);
      assert FeeRule(subs[..k], subs[k]);
      assert subs[..k][k - 1] == subs[k - 1];
      GrowthStep(Pow(8, k - 1), Pow(9, k - 1), subs[0].tip, subs[k - 1].tip, subs[k].tip);
      GrowthStep(Pow(8, k - 1), Pow(9, k - 1), subs[0].feeCap, subs[k - 1].feeCap, subs[k].feeCap);
    }
  }

  lemma GrowthStep(p8: nat, p9: nat, first: int, before: int, after: int)
    requires p8 * before >= p9 * first
    requires 8 * after >= 9 * before
    ensures 8 * p8 * after >= 9 * p9 * first
  {
    assert p8 * (8 * after) >= p8 * (9 * before);
  }

  /** A later attempt costs strictly more, so no two attempts are one transaction. */
  lemma {:induction false} AttemptsDiffer(g: Config, i: Intent, subs: seq<Submission>, j: nat, k: nat)
    requires Escalating(subs) && j < k < |subs|
    ensures 0 < subs[j].tip < subs[k].tip && subs[j].feeCap < subs[k].feeCap
    ensures TxFor(g, i, subs[j]) != TxFor(g, i, subs[k])
    decreases k
  {
    assert FeeRule(subs[..j], subs[j]) && FeeRule(subs[..k], subs[k]) && FeeRule(subs[..k - 1], subs[k - 1]);
    assert subs[..k][k - 1] == subs[k - 1];
    if j < k - 1 {
      AttemptsDiffer(g, i, subs, j, k - 1);
    }
  }
}
