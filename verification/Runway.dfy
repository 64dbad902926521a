/** The reserve along runs of the protocol itself: while operations are those the policy
    decided on, one in flight at a time, and refills deliver, the native balance can
    always pay for the next refill. */
module Runway {
  import opened Types
  import opened Gas
  import opened Records
  import opened Chain
  import opened Protocol
  import opened Reserve
  import Lifecycle

  /** The policy chose this operation on this native balance. */
  ghost predicate DecidedOn(p: GasPolicy, gas: int, i: Intent) {
    exists token, feeCap, quote, pending :: Chosen(p, Account(gas, token), feeCap, quote, pending, i)
  }

  predicate Chosen(p: GasPolicy, a: Account, feeCap: int, quote: Option<int>, pending: int, i: Intent) {
    feeCap >= 1
    && Decide(p, Input(p, a, feeCap, quote, pending)) == if i.kind.Refill? then Buy(i.delta, i.amount) else Execute
  }

  /** It was recorded after a moment at which everything recorded had settled, and the
      policy chose it on the latest native balance of that moment. */
  ghost predicate Basis(p: GasPolicy, trace: seq<Sys>, j: nat, k: nat, i: Intent) {
    && j <= k < |trace| && trace[j].store.intents == trace[k].store.intents && Ready(trace[j])
    && trace[j].chain.blocks != [] && DecidedOn(p, Head(trace[j].chain).native, i)
  }

  ghost predicate Based(p: GasPolicy, trace: seq<Sys>, k: nat, i: Intent) {
    exists j: nat :: Basis(p, trace, j, k, i)
  }

  /** The operation is new after this step of the run. */
  ghost predicate NewAt(trace: seq<Sys>, k: nat, id: ID) {
    k + 1 < |trace| && id in trace[k + 1].store.intents && id !in trace[k].store.intents
  }

  /** Everything recorded in a run was recorded on such a basis. */
  ghost predicate Followed(p: GasPolicy, trace: seq<Sys>) {
    forall k: nat, id :: NewAt(trace, k, id) ==> Based(p, trace, k, trace[k + 1].store.intents[id])
  }

  /** What was done in between keeps to the policy if what was done before did. */
  ghost predicate Keeps(p: GasPolicy, before: seq<Sys>, after: seq<Sys>) {
    Followed(p, before) ==> Followed(p, after)
  }

  /** A step under which nothing others sent is abandoned, no attempt may cost more than
      `bound` for a payment and the fee bound for a refill, and a refill mined pays its
      cost and delivers its size. */
  ghost predicate Fair(g: Config, p: GasPolicy, bound: int, s: Sys, t: Sys) {
    && s.chain.blocks != [] && t.chain.blocks != [] && Head(s.chain).funded <= Head(t.chain).funded
    && (forall id, n :: id in s.store.intents && 0 <= n < |Subs(s.store, id)| ==>
          Subs(s.store, id)[n].gas * Subs(s.store, id)[n].feeCap
          <= (if s.store.intents[id].kind.Refill? then p.feeBound else bound))
    && (forall id, tx :: id in s.store.intents && s.store.intents[id].kind.Refill?
                         && MinedAttempt(t, id, tx) && tx !in s.chain.receipts ==>
          DeliveredAt(s.store.intents[id], tx, Head(s.chain).native, Head(t.chain).native))
  }

  predicate DeliveredAt(i: Intent, tx: Tx, before: int, after: int) {
    var cost := before + i.delta - after;
    0 <= cost <= before && cost <= tx.gas * tx.feeCap
  }

  ghost predicate FairRun(g: Config, p: GasPolicy, bound: int, trace: seq<Sys>) {
    forall k: nat :: FairAt(g, p, bound, trace, k)
  }

  ghost predicate FairAt(g: Config, p: GasPolicy, bound: int, trace: seq<Sys>, k: nat) {
    k + 1 < |trace| && trace[k].origin.Some? ==> Fair(g, p, bound, trace[k], trace[k + 1])
  }

  // ----- keeping to the policy -----

  /** A stretch of a run that records no operation keeps to the policy. */
  lemma FollowedOn(g: Config, p: GasPolicy, before: seq<Sys>, after: seq<Sys>)
    requires Run(g, after) && 0 < |before| && before <= after && Followed(p, before)
    requires after[|after| - 1].store.intents == before[|before| - 1].store.intents
    ensures Followed(p, after)
  {
    hide Run, Basis;
    forall k: nat, id | NewAt(after, k, id) ensures Based(p, after, k, after[k + 1].store.intents[id]) {
      if k + 1 < |before| {
        BasisStays(p, before, after, k, id);
      } else {
        Between(g, after, |before| - 1, k);
        Between(g, after, k + 1, |after| - 1);
      }
    }
  }

  /** So does one that records a single operation on a reading taken in it. */
  lemma FollowedWith(g: Config, p: GasPolicy, before: seq<Sys>, after: seq<Sys>, id: ID, j: nat)
    requires Run(g, after) && 0 < |before| && before <= after && Followed(p, before)
    requires |before| <= j + 1 <= |after| && Ready(after[j]) && id !in after[j].store.intents
    requires var s, t := before[|before| - 1], after[|after| - 1];
             && id !in s.store.intents && id in t.store.intents
             && t.store.intents == s.store.intents[id := t.store.intents[id]]
             && after[j].chain.blocks != [] && DecidedOn(p, Head(after[j].chain).native, t.store.intents[id])
    ensures Followed(p, after)
  {
    hide Run, Ready, DecidedOn;
    var i := after[|after| - 1].store.intents[id];
    forall k: nat, x | NewAt(after, k, x) ensures Based(p, after, k, after[k + 1].store.intents[x]) {
      if k + 1 < |before| {
        BasisStays(p, before, after, k, x);
      } else {
        var start, last := |before| - 1, |after| - 1;
        Between(g, after, start, k);
        Between(g, after, k + 1, last);
        assert x == id;
        if k < j { Between(g, after, k + 1, j); }
        SameUntil(g, after, start, j, last, id);
        SameUntil(g, after, start, k, last, id);
        assert Basis(p, after, j, k, i);
      }
    }
  }

  lemma BasisStays(p: GasPolicy, before: seq<Sys>, after: seq<Sys>, k: nat, id: ID)
    requires before <= after && Followed(p, before) && NewAt(before, k, id)
    ensures Based(p, after, k, after[k + 1].store.intents[id])
  {
    hide Ready, DecidedOn;
    var j := BasisOf(p, before, k, id);
    assert Basis(p, after, j, k, after[k + 1].store.intents[id]);
  }

  lemma SameUntil(g: Config, trace: seq<Sys>, j: nat, k: nat, last: nat, id: ID)
    requires Run(g, trace) && j <= k <= last < |trace| && id !in trace[k].store.intents
    requires forall x :: x in trace[last].store.intents && x != id ==> x in trace[j].store.intents
    ensures trace[k].store.intents == trace[j].store.intents
  {
    hide Run;
    Between(g, trace, j, k);
    Between(g, trace, k, last);
  }

  lemma SameUntilLast(g: Config, trace: seq<Sys>, j: nat, k: nat, last: nat)
    requires Run(g, trace) && j <= k <= last < |trace| && trace[last].store.intents == trace[j].store.intents
    ensures trace[k].store.intents == trace[j].store.intents
  {
    hide Run;
    Between(g, trace, j, k);
    Between(g, trace, k, last);
  }

  lemma Between(g: Config, trace: seq<Sys>, j: nat, k: nat)
    requires Run(g, trace) && j <= k < |trace|
    ensures forall id :: id in trace[j].store.intents ==>
              id in trace[k].store.intents && trace[k].store.intents[id] == trace[j].store.intents[id]
  {
    hide Later;
    RunOnlyGrows(g, trace, j, k);
  }

  /** Everything stays settled until something more is recorded. */
  lemma ReadyStays(g: Config, trace: seq<Sys>, j: nat, k: nat)
    requires Run(g, trace) && j <= k < |trace| && Ready(trace[j])
    requires trace[k].store.intents == trace[j].store.intents
    ensures Ready(trace[k])
  {
    RunKeepsInv(g, trace, j);
    RunKeepsInv(g, trace, k);
    RunOnlyGrows(g, trace, j, k);
    SpentGrows(g, trace[j].chain, trace[k].chain);
    hide Run, ChainInv, Later, BalanceInv, RecordsInv, AttemptsInv, WriteAhead, OneInFlight, FactsInv, ScanInv;
  }

  // ----- what a reading still promises -----

  /** Wherever an attempt at this nonce may yet be mined, this much is held. */
  ghost predicate Held(c: Chain, nonce: nat, level: int) {
    forall b :: c.settled <= b < |c.blocks| && c.blocks[b].nonce <= nonce && c.blocks[b].funded == Head(c).funded ==>
      c.blocks[b].native >= level
  }

  /** Moves of the chain keep what is held until the nonce is spent. */
  lemma EnvKeepsHeld(g: Config, c: Chain, e: EnvStep, nonce: nat, level: int)
    requires BlocksInv(c) && NativeInv(c) && EnvEnabled(g, c, e) && nonce <= Head(c).nonce && Held(c, nonce, level)
    requires Head(EnvApply(g, c, e)).funded >= Head(c).funded
    ensures Held(EnvApply(g, c, e), nonce, level)
  {
    hide Honest, Net, NativeInv;
    var d, top := EnvApply(g, c, e), |c.blocks| - 1;
    forall b | d.settled <= b < |d.blocks| && d.blocks[b].nonce <= nonce && d.blocks[b].funded == Head(d).funded
      ensures d.blocks[b].native >= level
    {
      var a := if b <= top then b else top;
      FundedGrows(c, a, top);
      assert c.blocks[a].nonce <= nonce && c.blocks[a].funded == Head(c).funded ==> c.blocks[a].native >= level;
    }
  }

  lemma FundedGrows(c: Chain, i: nat, j: nat)
    requires NativeInv(c) && i <= j < |c.blocks|
    ensures c.blocks[i].funded <= c.blocks[j].funded
  {
  }

  /** A step moves the chain, or leaves its blocks alone. */
  lemma EnvOrSame(g: Config, trace: seq<Sys>, k: nat) returns (e: Option<EnvStep>)
    requires Run(g, trace) && k + 1 < |trace| && trace[k].chain.blocks != []
    ensures e.Some? ==> EnvEnabled(g, trace[k].chain, e.value)
                        && trace[k + 1] == trace[k].(chain := EnvApply(g, trace[k].chain, e.value))
    ensures e.None? ==> trace[k + 1].chain == trace[k].chain.(ours := trace[k + 1].chain.ours)
  {
    assert StepAt(g, trace, k);
    hide Run, EnvEnabled, EnvApply, MayRecord, MayAttempt, MaySettle, MayMoveFloor;
    var st :| Enabled(g, trace[k], st) && trace[k + 1] == Apply(g, trace[k], st);
    e := if st.Env? then Some(st.e) else None;
  }

  lemma StepKeepsHeld(g: Config, p: GasPolicy, bound: int, trace: seq<Sys>, k: nat, nonce: nat, level: int)
    requires Run(g, trace) && k + 1 < |trace| && FairRun(g, p, bound, trace) && trace[k].origin.Some?
    requires Held(trace[k].chain, nonce, level) && nonce <= Spent(trace[k].chain)
    ensures Held(trace[k + 1].chain, nonce, level) && nonce <= Spent(trace[k + 1].chain)
    ensures trace[k + 1].origin == trace[k].origin
  {
    RunKeepsInv(g, trace, k);
    RunKeepsInv(g, trace, k + 1);
    RunKeepsNative(g, trace, k);
    RunOnlyGrows(g, trace, k, k + 1);
    var s, t := trace[k], trace[k + 1];
    assert FairAt(g, p, bound, trace, k);
    hide NativeInv, NoncesInv, HonestInv, BalanceInv, RecordsInv, AttemptsInv, WriteAhead, OneInFlight, FactsInv,
        FloorInv, ScanInv, EnvEnabled, EnvApply, Run, FairRun, Later;
    SpentGrows(g, s.chain, t.chain);
    var e := EnvOrSame(g, trace, k);
    if e.Some? {
      assert s.chain.blocks[s.chain.settled].nonce <= Head(s.chain).nonce;
      EnvKeepsHeld(g, s.chain, e.value, nonce, level);
    }
  }

  lemma {:induction false} RunKeepsHeld(g: Config, p: GasPolicy, bound: int, trace: seq<Sys>, j: nat, k: nat,
                                        nonce: nat, level: int)
    requires Run(g, trace) && j <= k < |trace| && FairRun(g, p, bound, trace) && trace[j].origin.Some?
    requires Held(trace[j].chain, nonce, level) && nonce <= Spent(trace[j].chain)
    ensures Held(trace[k].chain, nonce, level) && nonce <= Spent(trace[k].chain)
    ensures trace[k].origin == trace[j].origin
    decreases k
  {
    hide Run, FairRun, Held;
    if j < k {
      RunKeepsHeld(g, p, bound, trace, j, k - 1, nonce, level);
      StepKeepsHeld(g, p, bound, trace, k - 1, nonce, level);
    }
  }

  /** With one signer nothing of the account is above the nonces of a moment at which
      everything recorded had settled, until something more is recorded. */
  lemma NothingAbove(g: Config, trace: seq<Sys>, j: nat, k: nat, last: nat)
    requires Run(g, trace) && j <= k <= last < |trace| && SoleSigner(trace[last])
    requires Ready(trace[j]) && trace[k].store.intents == trace[j].store.intents
    ensures trace[k].chain.blocks != [] && Head(trace[k].chain).nonce == Spent(trace[j].chain)
  {
    RunKeepsInv(g, trace, j);
    RunKeepsInv(g, trace, k);
    RunOnlyGrows(g, trace, j, k);
    RunOnlyGrows(g, trace, k, last);
    var s, t, n := trace[j], trace[k], Spent(trace[j].chain);
    SpentGrows(g, s.chain, t.chain);
    hide Run, AttemptsInv, OneInFlight, FactsInv, ScanInv, HonestInv, BalanceInv;
    if n < Head(t.chain).nonce {
      Lifecycle.SoleSignerWon(g, t, n);
    }
  }

  /** At such a moment the latest balance is held wherever the next nonce may be used. */
  lemma HeldAtReading(g: Config, c: Chain)
    requires BlocksInv(c) && NativeInv(c) && Head(c).nonce == Spent(c)
    ensures Held(c, Spent(c), Head(c).native)
  {
    forall b | c.settled <= b < |c.blocks| && c.blocks[b].funded == Head(c).funded
      ensures c.blocks[b].native == Head(c).native
    {
      assert c.blocks[c.settled].nonce <= c.blocks[b].nonce <= Head(c).nonce;
    }
  }

  lemma HeldBelow(c: Chain, nonce: nat, lower: nat, level: int)
    requires Held(c, nonce, level) && lower <= nonce
    ensures Held(c, lower, level)
  {
  }

  /** What is new after a step was recorded by it, at a nonce not past the settled. */
  lemma RecordedByStep(g: Config, trace: seq<Sys>, k: nat, id: ID)
    requires Run(g, trace) && NewAt(trace, k, id)
    ensures trace[k + 1].chain == trace[k].chain && trace[k].store.floor.Some?
    ensures trace[k + 1].store.intents == trace[k].store.intents[id := trace[k + 1].store.intents[id]]
    ensures trace[k + 1].store.intents[id].nonce <= Spent(trace[k].chain)
  {
    assert StepAt(g, trace, k);
    hide Run, EnvEnabled, EnvApply, MayAttempt, MaySettle, MayMoveFloor, WellBuilt;
    var st :| Enabled(g, trace[k], st) && trace[k + 1] == Apply(g, trace[k], st);
    assert st.RecordIntent?;
  }

  /** So a reading taken there is still held when the operation is recorded. */
  lemma BasisHeld(g: Config, p: GasPolicy, bound: int, trace: seq<Sys>, j: nat, k: nat, id: ID)
    requires Run(g, trace) && NewAt(trace, k, id) && FairRun(g, p, bound, trace) && SoleSigner(trace[k + 1])
    requires Basis(p, trace, j, k, trace[k + 1].store.intents[id])
    ensures Held(trace[k + 1].chain, trace[k + 1].store.intents[id].nonce, Head(trace[j].chain).native)
  {
    var level, n := Head(trace[j].chain).native, Spent(trace[j].chain);
    hide Run, FairRun, Held, DecidedOn;
    RecordedByStep(g, trace, k, id);
    NothingAbove(g, trace, j, j, k + 1);
    NothingAbove(g, trace, j, k, k + 1);
    RunKeepsNative(g, trace, j);
    RunKeepsInv(g, trace, j);
    RunKeepsInv(g, trace, k);
    hide NativeInv, NoncesInv, HonestInv, BalanceInv, RecordsInv, AttemptsInv, WriteAhead, OneInFlight, FactsInv,
        ScanInv;
    HeldAtReading(g, trace[j].chain);
    RunKeepsHeld(g, p, bound, trace, j, k, n, level);
    HeldBelow(trace[k].chain, n, trace[k + 1].store.intents[id].nonce, level);
  }

  /** It need not be once what others sent is taken back: a reading that counts a block
      above the settled head is not held after that block is abandoned. */
  lemma AbandonedIsNotHeld(g: Config, c: Chain, nonce: nat)
    requires BlocksInv(c) && Head(c).nonce == Spent(c) <= nonce && c.blocks[c.settled].native < Head(c).native
    requires c.blocks[c.settled].funded < Head(c).funded
    ensures EnvEnabled(g, c, Reorg(c.settled))
    ensures !Held(EnvApply(g, c, Reorg(c.settled)), nonce, Head(c).native)
  {
    var d := EnvApply(g, c, Reorg(c.settled));
    assert d.blocks[d.settled] == c.blocks[c.settled] == Head(d);
  }

  // ----- the reserve lasts -----

  /** What the policy chose it on is still held wherever an attempt may yet be mined. */
  ghost predicate Standing(p: GasPolicy, c: Chain, i: Intent) {
    exists gas :: gas >= Dearest(p) && DecidedOn(p, gas, i) && Held(c, i.nonce, gas)
  }

  ghost predicate AllStanding(p: GasPolicy, s: Sys) {
    forall id :: id in s.store.intents ==> Standing(p, s.chain, s.store.intents[id])
  }

  /** Every block from this one on leaves enough for any refill the policy would make. */
  ghost predicate Enough(p: GasPolicy, c: Chain, first: nat) {
    forall b :: first <= b < |c.blocks| ==> c.blocks[b].native >= Dearest(p)
  }

  /** Mining an attempt at an operation the policy chose leaves enough. */
  lemma AttemptLeavesEnough(p: GasPolicy, bound: int, i: Intent, before: nat, gas: int, tx: Tx, after: nat)
    requires p.Valid() && Sufficient(p, bound) && DecidedOn(p, gas, i) && before >= gas >= Dearest(p)
    requires tx.gas * tx.feeCap <= (if i.kind.Refill? then p.feeBound else bound)
    requires if i.kind.Refill? then DeliveredAt(i, tx, before, after)
             else after < before ==> before - after <= tx.gas * tx.feeCap
    ensures after >= Dearest(p)
  {
    var token, feeCap, quote, pending :| Chosen(p, Account(gas, token), feeCap, quote, pending, i);
    TopCapIsGreatest(p, feeCap);
    hide Price, Dearest, TopCap, WithSlippage;
  }

  lemma EnvKeepsEnough(g: Config, p: GasPolicy, c: Chain, e: EnvStep, first: nat)
    requires BlocksInv(c) && EnvEnabled(g, c, e) && first <= c.settled && Enough(p, c, first)
    requires Head(EnvApply(g, c, e)).native >= Dearest(p)
    ensures Enough(p, EnvApply(g, c, e), first)
  {
    hide Honest, Net, Dearest;
    var d, top := EnvApply(g, c, e), |c.blocks| - 1;
    forall b | first <= b < |d.blocks| ensures d.blocks[b].native >= Dearest(p) {
      if b == |d.blocks| - 1 {
      } else {
        assert d.blocks[b] == c.blocks[b];
      }
    }
  }

  /** With one signer the account's next transaction is an attempt at a recorded
      operation, whose reading is held. */
  lemma NextIsAttempt(g: Config, p: GasPolicy, s: Sys, tx: Tx) returns (id: ID, n: nat)
    requires Inv(g, s) && SoleSigner(s) && s.origin.Some? && AllStanding(p, s)
    requires tx in s.chain.ours || tx in s.chain.foreign
    requires tx.nonce == Head(s.chain).nonce
    ensures tx in s.chain.ours && id in s.store.intents && n < |Subs(s.store, id)|
    ensures tx.gas == Subs(s.store, id)[n].gas && tx.feeCap == Subs(s.store, id)[n].feeCap
    ensures HasHash(Subs(s.store, id), HashOf(tx))
    ensures exists gas :: Head(s.chain).native >= gas >= Dearest(p) && DecidedOn(p, gas, s.store.intents[id])
  {
    hide DecidedOn, Dearest, NoncesInv, HonestInv, BalanceInv, FactsInv, ScanInv, OneInFlight;
    assert s.origin.value <= Spent(s.chain) <= Head(s.chain).nonce;
    assert Recorded(s.store, tx);
    id :| id in s.store.subs && HasHash(s.store.subs[id], HashOf(tx));
    n :| 0 <= n < |s.store.subs[id]| && s.store.subs[id][n].txHash == HashOf(tx);
    AttemptIsIntent(g, s, id, tx);
    assert AttemptsOf(g, s.store.intents[id], Subs(s.store, id));
    assert Standing(p, s.chain, s.store.intents[id]);
  }

  lemma MineLeavesEnough(g: Config, p: GasPolicy, bound: int, s: Sys, t: Sys, e: EnvStep)
    requires Inv(g, s) && SoleSigner(s) && s.origin.Some? && AllStanding(p, s) && Fair(g, p, bound, s, t)
    requires e.Mine? && EnvEnabled(g, s.chain, e) && t == s.(chain := EnvApply(g, s.chain, e))
    requires p.Valid() && Sufficient(p, bound) && Head(s.chain).native >= Dearest(p)
    ensures Head(t.chain).native >= Dearest(p)
  {
    hide Inv, Sufficient, DecidedOn, Dearest, Honest, Net, SoleSigner, AllStanding, DeliveredAt;
    if e.tx.sender == g.account {
      var id, n := NextIsAttempt(g, p, s, e.tx);
      var i := s.store.intents[id];
      var gas :| Head(s.chain).native >= gas >= Dearest(p) && DecidedOn(p, gas, i);
      assert i.kind.Refill? ==> MinedAttempt(t, id, e.tx);
      AttemptLeavesEnough(p, bound, i, Head(s.chain).native, gas, e.tx, Head(t.chain).native);
    }
  }

  lemma HeadEnough(p: GasPolicy, c: Chain, first: nat)
    requires BlocksInv(c) && first <= c.settled && Enough(p, c, first)
    ensures Head(c).native >= Dearest(p)
  {
    hide Dearest;
  }

  lemma SameEnough(p: GasPolicy, c: Chain, d: Chain, first: nat)
    requires Enough(p, c, first) && d.blocks == c.blocks
    ensures Enough(p, d, first)
  {
    hide Dearest;
  }

  lemma OtherLeavesEnough(g: Config, p: GasPolicy, c: Chain, e: EnvStep, first: nat)
    requires BlocksInv(c) && EnvEnabled(g, c, e) && !e.Mine? && first <= c.settled && Enough(p, c, first)
    ensures Head(EnvApply(g, c, e)).native >= Dearest(p)
  {
    hide Dearest;
    HeadEnough(p, c, first);
  }

  lemma StepKeepsEnough(g: Config, p: GasPolicy, bound: int, trace: seq<Sys>, k: nat, first: nat)
    requires Run(g, trace) && k + 1 < |trace| && FairRun(g, p, bound, trace) && SoleSigner(trace[k])
    requires trace[k].origin.Some? && first <= trace[k].chain.settled
    requires p.Valid() && Sufficient(p, bound) && Enough(p, trace[k].chain, first) && AllStanding(p, trace[k])
    ensures Enough(p, trace[k + 1].chain, first)
  {
    RunKeepsInv(g, trace, k);
    assert FairAt(g, p, bound, trace, k);
    var s, t := trace[k], trace[k + 1];
    assert BlocksInv(s.chain);
    HeadEnough(p, s.chain, first);
    hide Run, Inv, FairRun, Fair, Sufficient, Dearest, SoleSigner, AllStanding, EnvEnabled, EnvApply, BlocksInv, Enough;
    var e := EnvOrSame(g, trace, k);
    if e.Some? {
      if e.value.Mine? {
        MineLeavesEnough(g, p, bound, s, t, e.value);
      } else {
        OtherLeavesEnough(g, p, s.chain, e.value, first);
      }
      EnvKeepsEnough(g, p, s.chain, e.value, first);
    } else {
      SameEnough(p, s.chain, t.chain, first);
    }
  }

  lemma StepKeepsStanding(g: Config, p: GasPolicy, bound: int, trace: seq<Sys>, k: nat, id: ID)
    requires Run(g, trace) && k + 1 < |trace| && FairRun(g, p, bound, trace) && trace[k].origin.Some?
    requires id in trace[k].store.intents && Standing(p, trace[k].chain, trace[k].store.intents[id])
    ensures id in trace[k + 1].store.intents && Standing(p, trace[k + 1].chain, trace[k + 1].store.intents[id])
  {
    RunKeepsInv(g, trace, k);
    RunOnlyGrows(g, trace, k, k + 1);
    var i := trace[k].store.intents[id];
    assert i.nonce <= Spent(trace[k].chain);
    hide Run, Inv, FairRun, DecidedOn, Dearest, Held, Later;
    var gas :| gas >= Dearest(p) && DecidedOn(p, gas, i) && Held(trace[k].chain, i.nonce, gas);
    StepKeepsHeld(g, p, bound, trace, k, i.nonce, gas);
  }

  /** The first floor is bound by this step of the run. */
  ghost predicate BoundAt(trace: seq<Sys>, j: nat) {
    0 < j < |trace| && trace[j - 1].origin.None? && trace[j].origin.Some?
  }

  lemma NothingBefore(g: Config, trace: seq<Sys>, j: nat, k: nat)
    requires Run(g, trace) && BoundAt(trace, j) && k < |trace|
    ensures trace[k].origin.Some? <==> j <= k
    ensures Ready(trace[k]) ==> j <= k
  {
    RunKeepsInv(g, trace, k);
    hide ChainInv, BalanceInv, RecordsInv, AttemptsInv, WriteAhead, OneInFlight, FactsInv, ScanInv, Later, Run;
    if k < j { RunOnlyGrows(g, trace, k, j - 1); } else { RunOnlyGrows(g, trace, j, k); }
  }

  lemma BoundEmpty(g: Config, trace: seq<Sys>, j: nat)
    requires Run(g, trace) && BoundAt(trace, j)
    ensures trace[j].store.intents == map[]
  {
    var before := j - 1;
    RunKeepsInv(g, trace, before);
    assert trace[before].store.floor.None? && trace[before].store.intents == map[];
    hide Run, Inv;
    if trace[j].store.intents != map[] {
      var id :| id in trace[j].store.intents;
      assert NewAt(trace, before, id);
      RecordedByStep(g, trace, before, id);
    }
  }

  lemma SoleBefore(g: Config, trace: seq<Sys>, k: nat, last: nat)
    requires Run(g, trace) && k <= last < |trace| && trace[k].origin.Some? && SoleSigner(trace[last])
    ensures SoleSigner(trace[k])
  {
    RunOnlyGrows(g, trace, k, last);
  }

  lemma BasisOf(p: GasPolicy, trace: seq<Sys>, k: nat, id: ID) returns (m: nat)
    requires Followed(p, trace) && NewAt(trace, k, id)
    ensures Basis(p, trace, m, k, trace[k + 1].store.intents[id])
  {
    hide Basis;
    assert Based(p, trace, k, trace[k + 1].store.intents[id]);
    var j: nat :| Basis(p, trace, j, k, trace[k + 1].store.intents[id]);
    m := j;
  }

  /** What is newly recorded stands on its reading. */
  lemma NewStands(g: Config, p: GasPolicy, bound: int, trace: seq<Sys>, j: nat, m: nat, k: nat, id: ID)
    requires Run(g, trace) && NewAt(trace, k, id) && FairRun(g, p, bound, trace) && SoleSigner(trace[k + 1])
    requires Basis(p, trace, m, k, trace[k + 1].store.intents[id])
    requires j <= m && Enough(p, trace[m].chain, trace[j].chain.settled)
    ensures Standing(p, trace[k + 1].chain, trace[k + 1].store.intents[id])
  {
    RunKeepsInv(g, trace, m);
    RunOnlyGrows(g, trace, j, m);
    assert trace[j].chain.settled <= trace[m].chain.settled < |trace[m].chain.blocks|;
    hide Run, Inv, FairRun, DecidedOn, Dearest, Held, SysLater;
    BasisHeld(g, p, bound, trace, m, k, id);
  }

  /** Every operation stands and every block leaves enough, from where the first floor was
      bound on. */
  lemma {:induction false} RunKeepsEnough(g: Config, p: GasPolicy, bound: int, trace: seq<Sys>, j: nat, k: nat)
    requires Run(g, trace) && BoundAt(trace, j) && j <= k < |trace|
    requires Followed(p, trace) && FairRun(g, p, bound, trace) && SoleSigner(trace[k])
    requires p.Valid() && Sufficient(p, bound) && Enough(p, trace[j].chain, trace[j].chain.settled)
    ensures AllStanding(p, trace[k]) && Enough(p, trace[k].chain, trace[j].chain.settled)
    decreases k
  {
    BoundEmpty(g, trace, j);
    NothingBefore(g, trace, j, j);
    hide Run, FairRun, Sufficient, Followed, Enough, Standing, SysLater;
    if j < k {
      NothingBefore(g, trace, j, k - 1);
      SoleBefore(g, trace, k - 1, k);
      RunOnlyGrows(g, trace, j, k - 1);
      RunKeepsEnough(g, p, bound, trace, j, k - 1);
      StepKeepsEnough(g, p, bound, trace, k - 1, trace[j].chain.settled);
      forall id | id in trace[k].store.intents ensures Standing(p, trace[k].chain, trace[k].store.intents[id]) {
        if id in trace[k - 1].store.intents {
          StepKeepsStanding(g, p, bound, trace, k - 1, id);
        } else {
          var m := BasisOf(p, trace, k - 1, id);
          NothingBefore(g, trace, j, m);
          SoleBefore(g, trace, m, k);
          RunKeepsEnough(g, p, bound, trace, j, m);
          NewStands(g, p, bound, trace, j, m, k - 1, id);
        }
      }
    }
  }

  /** The reserve lasts. From where the first floor was bound with enough, at every block
      of every later state of a run that follows the policy, with one signer, delivery
      and nothing sent in taken back, a refill can be paid for: the policy never answers
      that the reserve cannot, whatever the fees, the quote and the payment. */
  lemma ReserveLasts(g: Config, p: GasPolicy, bound: int, trace: seq<Sys>, j: nat, k: nat, b: nat, feeCap: int,
                     token: int, quote: Option<int>, pending: int)
    requires Run(g, trace) && BoundAt(trace, j) && j <= k < |trace|
    requires Followed(p, trace) && FairRun(g, p, bound, trace) && SoleSigner(trace[k])
    requires p.Valid() && Sufficient(p, bound) && Enough(p, trace[j].chain, trace[j].chain.settled)
    requires trace[j].chain.settled <= b < |trace[k].chain.blocks| && feeCap >= 1
    ensures trace[k].chain.blocks[b].native >= Dearest(p)
    ensures Decide(p, Input(p, Account(trace[k].chain.blocks[b].native, token), feeCap, quote, pending))
            != Wait(NeedNative)
  {
    hide Run, FairRun, Followed, Sufficient, Price, TopCap, Dearest, WithSlippage;
    RunKeepsEnough(g, p, bound, trace, j, k);
    TopCapIsGreatest(p, feeCap);
  }
}
