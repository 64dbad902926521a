/** What the protocol guarantees over every run: any interleaving of payments,
    retries, refills, restarts and scans with any behaviour of the chain, including,
    where it is not excluded, somebody else signing with the same key. */
module Lifecycle {
  import opened Types
  import opened Sums
  import opened Fees
  import opened Records
  import opened Chain
  import opened Protocol

  // ----- logs of a transfer -----

  function PaidTo(g: Config, l: Log, to: Address): nat {
    if SentLog(l, g.token, g.account) && AddressOf(l.topics[2]) == to then Word(l) else 0
  }

  /** What a receipt moved from the account to one address. */
  function PaidToSum(g: Config, logs: seq<Log>, to: Address): nat {
    if logs == [] then 0 else PaidToSum(g, logs[..|logs| - 1], to) + PaidTo(g, logs[|logs| - 1], to)
  }

  lemma {:induction false} NothingSent(g: Config, logs: seq<Log>, to: Address)
    requires forall l :: l in logs ==> !SentLog(l, g.token, g.account)
    ensures SentValues(logs, g.token, g.account) == [] && OutSum(g, logs) == 0 && PaidToSum(g, logs, to) == 0
  {
    if logs != [] {
      NothingSent(g, logs[..|logs| - 1], to);
    }
  }

  /** When exactly one log is sent by the account, it is the whole of what was sent. */
  lemma {:induction false} SentOnce(g: Config, logs: seq<Log>, k: nat, to: Address)
    requires k < |logs| && SentLog(logs[k], g.token, g.account)
    requires forall j :: 0 <= j < |logs| && j != k ==> !SentLog(logs[j], g.token, g.account)
    ensures SentValues(logs, g.token, g.account) == [Word(logs[k])]
    ensures OutSum(g, logs) == Out(g, logs[k]) && PaidToSum(g, logs, to) == PaidTo(g, logs[k], to)
    decreases |logs|
  {
    var front := logs[..|logs| - 1];
    if k == |logs| - 1 {
      NothingSent(g, front, to);
    } else {
      assert front[k] == logs[k];
      SentOnce(g, front, k, to);
    }
  }

  // ----- exactly once -----

  ghost function MinedAttempts(s: Sys, id: ID): set<Tx> {
    set tx | tx in s.chain.receipts && MinedAttempt(s, id, tx)
  }

  /** What all mined attempts at an intent moved to its destination. */
  ghost function DeliveredBy(g: Config, s: Sys, i: Intent): Tx -> int {
    (tx: Tx) => if tx in s.chain.receipts then PaidToSum(g, s.chain.receipts[tx].logs, i.to) else 0
  }

  ghost function Delivered(g: Config, s: Sys, id: ID): int
    requires id in s.store.intents
  {
    Sum(MinedAttempts(s, id), DeliveredBy(g, s, s.store.intents[id]))
  }

  /** A mined attempt at a payment pays the whole amount if it executed and nothing
      if it did not. */
  lemma AttemptPays(g: Config, s: Sys, id: ID, tx: Tx)
    requires ChainInv(g, s.chain) && RecordsInv(g, s.store) && AttemptsInv(g, s.store)
    requires MinedAttempt(s, id, tx) && id in s.store.intents && !s.store.intents[id].kind.Refill?
    ensures var i := s.store.intents[id];
            var r := s.chain.receipts[tx];
            && PaidToSum(g, r.logs, i.to) == (if Executed(g, i, r) then i.amount else 0)
            && OutSum(g, r.logs) == (if Executed(g, i, r) && i.to != g.account then i.amount else 0)
  {
    AttemptIsIntent(g, s, id, tx);
    var i, r := s.store.intents[id], s.chain.receipts[tx];
    assert Honest(g, tx, s.chain.blocks[r.block].time, r.success, r.logs);
    assert forall l :: SentLog(l, g.token, g.account) ==> IsTransfer(g, l);
    if PaidOnce(g, r.logs, i.to, i.amount) {
      var k :| 0 <= k < |r.logs| && TransferLog(r.logs[k], g.token, g.account, i.to, i.amount)
               && forall j :: 0 <= j < |r.logs| && j != k ==> !IsTransfer(g, r.logs[j]);
      assert r.logs[k] in r.logs;
      SentOnce(g, r.logs, k, i.to);
      assert Executed(g, i, r);
    } else {
      NothingSent(g, r.logs, i.to);
      assert !Executed(g, i, r) by {
        forall k | 0 <= k < |r.logs| ensures !TransferLog(r.logs[k], g.token, g.account, i.to, i.amount) {
          assert r.logs[k] in r.logs;
        }
      }
    }
  }

  /** Exactly once. Over every run each identifier has at most one mined
      transaction, and a payment's amount reaches its destination zero times or
      once: once exactly when a mined attempt executed. */
  lemma ExactlyOnce(g: Config, trace: seq<Sys>, k: nat, id: ID)
    requires Run(g, trace) && k < |trace| && id in trace[k].store.intents
    ensures |MinedAttempts(trace[k], id)| <= 1
    ensures var s, i := trace[k], trace[k].store.intents[id];
            !i.kind.Refill? ==>
              Delivered(g, s, id) ==
              (if exists tx :: tx in MinedAttempts(s, id) && Executed(g, i, s.chain.receipts[tx]) then i.amount else 0)
  {
    hide ChainInv, BalanceInv, RecordsInv, AttemptsInv, WriteAhead, OneInFlight, FactsInv, FloorInv, ScanInv, Run,
        PaidToSum;
    RunKeepsInv(g, trace, k);
    var s := trace[k];
    var i := s.store.intents[id];
    var mined := MinedAttempts(s, id);
    if mined != {} {
      var tx :| tx in mined;
      forall u | u in mined ensures u == tx {
        OneMinedAttempt(g, s, id, u, tx);
      }
      assert mined == {tx};
      SumTake(mined, tx, DeliveredBy(g, s, i));
      if !i.kind.Refill? {
        AttemptPays(g, s, id, tx);
      }
    }
  }

  // ----- write-ahead -----

  /** Every transaction of this key that the rail did not lose control of belongs to
      exactly one recorded intent: for this chain it carries that intent's nonce, target
      and call at exactly the fees and gas of one stored attempt, whose hash it has. */
  lemma OwnTransactionsAreRecorded(g: Config, trace: seq<Sys>, k: nat, tx: Tx) returns (id: ID, n: nat)
    requires Run(g, trace) && k < |trace|
    requires tx in trace[k].chain.ours || (OwnMined(g, trace[k].chain, tx) && tx !in trace[k].chain.foreign)
    ensures var r := trace[k].store;
            && id in r.intents && n < |Subs(r, id)|
            && Subs(r, id)[n].txHash == HashOf(tx) && tx == TxFor(g, r.intents[id], Subs(r, id)[n])
            && var i, sub := r.intents[id], Subs(r, id)[n];
            && tx.chainId == g.chainId && tx.sender == g.account && tx.nonce == i.nonce
            && tx.to == (if i.kind.Refill? then i.to else g.token) && tx.data == i.calldata
            && tx.tip == sub.tip && tx.feeCap == sub.feeCap && tx.gas == sub.gas && 0 < tx.tip <= tx.feeCap
            && forall other :: other in r.intents && HasHash(Subs(r, other), HashOf(tx)) ==> other == id
  {
    RunKeepsInv(g, trace, k);
    var s := trace[k];
    assert Recorded(s.store, tx);
    id :| id in s.store.subs && HasHash(s.store.subs[id], HashOf(tx));
    n :| 0 <= n < |s.store.subs[id]| && s.store.subs[id][n].txHash == HashOf(tx);
    assert id in s.store.subs.Keys;
    assert AttemptsOf(g, s.store.intents[id], Subs(s.store, id));
    assert FeeRule(Subs(s.store, id)[..n], Subs(s.store, id)[n]);
    forall other | other in s.store.intents && HasHash(Subs(s.store, other), HashOf(tx)) ensures other == id {
      AttemptIsIntent(g, s, other, tx);
      AttemptIsIntent(g, s, id, tx);
    }
  }

  // ----- outcomes -----

  /** A recorded attempt was mined at or below the settled head and carried the intent
      out. */
  ghost predicate CarriedOut(g: Config, s: Sys, id: ID) {
    id in s.store.intents
    && exists tx :: MinedAttempt(s, id, tx) && s.chain.receipts[tx].block <= s.chain.settled
                    && Executed(g, s.store.intents[id], s.chain.receipts[tx])
  }

  /** Confirmed means exactly that a recorded attempt was mined at or below the
      settled head and carried the intent out. */
  lemma ConfirmedExactly(g: Config, trace: seq<Sys>, k: nat, id: ID)
    requires Run(g, trace) && k < |trace| && id in trace[k].store.facts
    ensures var s := trace[k];
            id in s.store.intents
            && (s.store.facts[id].executed <==> CarriedOut(g, s, id))
  {
    RunKeepsInv(g, trace, k);
    var s := trace[k];
    var f := s.store.facts[id];
    assert MaySettle(g, s, id, f);
    if f.txHash.HashOf? {
      AttemptIsIntent(g, s, id, f.txHash.tx);
      SpentIsSettled(g, s.chain, f.txHash.tx, s.chain.settled);
      forall tx | MinedAttempt(s, id, tx) ensures tx == f.txHash.tx {
        OneMinedAttempt(g, s, id, tx, f.txHash.tx);
      }
    }
  }

  /** Confirmed and failed are permanent, and failed is final: in no continuation of
      the run does any attempt at the intent carry it out. */
  lemma SettledForever(g: Config, trace: seq<Sys>, j: nat, k: nat, id: ID)
    requires Run(g, trace) && j <= k < |trace| && id in trace[j].store.facts
    ensures id in trace[k].store.facts && trace[k].store.facts[id] == trace[j].store.facts[id]
    ensures id in trace[k].store.intents
    ensures !trace[j].store.facts[id].executed ==>
              forall tx :: MinedAttempt(trace[k], id, tx) ==>
                !Executed(g, trace[k].store.intents[id], trace[k].chain.receipts[tx])
  {
    hide ChainInv, BalanceInv, AttemptsInv, WriteAhead, OneInFlight, FloorInv, ScanInv, Run;
    RunOnlyGrows(g, trace, j, k);
    RunKeepsInv(g, trace, k);
    var s := trace[k];
    var f := s.store.facts[id];
    assert MaySettle(g, s, id, f);
    forall tx | MinedAttempt(s, id, tx) ensures Executed(g, s.store.intents[id], s.chain.receipts[tx]) == f.executed {
      OneMinedAttempt(g, s, id, tx, f.txHash.tx);
    }
  }

  /** Once a recorded attempt has spent the nonce at a settled head, looking again
      at any later head, with any further attempts appended, finds the same fact;
      and what is cached is what recomputing would find. */
  lemma OutcomeStable(g: Config, trace: seq<Sys>, j: nat, k: nat, id: ID, e: Fact, f: Fact)
    requires Run(g, trace) && j <= k < |trace|
    requires MaySettle(g, trace[j], id, e) && id in trace[k].store.intents
    requires IsOutcome(g, trace[k], trace[k].store.intents[id], f)
    ensures e.txHash.HashOf? ==> f == e
    ensures id in trace[k].store.facts ==> trace[k].store.facts[id] == f
  {
    hide ChainInv, BalanceInv, AttemptsInv, WriteAhead, OneInFlight, FloorInv, ScanInv, Run;
    RunOnlyGrows(g, trace, j, k);
    RunKeepsInv(g, trace, k);
    var s, t := trace[j], trace[k];
    if e.txHash.HashOf? {
      var tx := e.txHash.tx;
      RunKeepsInv(g, trace, j);
      AttemptIsIntent(g, s, id, tx);
      SpentIsSettled(g, s.chain, tx, s.chain.settled);
      var n :| 0 <= n < |Subs(s.store, id)| && Subs(s.store, id)[n].txHash == e.txHash;
      assert Subs(t.store, id)[n].txHash == e.txHash;
      assert MinedAttempt(t, id, tx);
      assert IsOutcome(g, t, t.store.intents[id], e);
      OutcomeUnique(g, t, id, e, f);
    }
    if id in t.store.facts {
      assert MaySettle(g, t, id, t.store.facts[id]);
      OutcomeUnique(g, t, id, t.store.facts[id], f);
    }
  }

  // ----- nonces -----

  /** With any signer on the key: each nonce has at most one intent, whatever is
      unresolved is the newest, and the floor never passes a nonce that no recorded
      attempt won. */
  lemma NonceLedger(g: Config, trace: seq<Sys>, k: nat)
    requires Run(g, trace) && k < |trace|
    ensures var s := trace[k];
            && Keyed(s.store)
            && (forall a, b :: a in PendingIds(s.store) && b in PendingIds(s.store) ==> a == b)
            && (s.store.floor.Some? ==> s.origin.Some?)
            && (s.store.floor.Some? ==>
                  forall n :: s.origin.value <= n < s.store.floor.value ==> Accounted(s.store, n))
  {
    RunKeepsInv(g, trace, k);
    var r := trace[k].store;
    forall a, b | a in PendingIds(r) && b in PendingIds(r) ensures a == b {
      assert r.intents[a].nonce <= r.intents[b].nonce <= r.intents[a].nonce;
    }
  }

  /** With one signer the recorded nonces are a gap-free range from the first floor,
      all but possibly the last resolved; every spent nonce above the first floor has
      an intent one of whose attempts was mined, so reconciliation never refuses. */
  lemma SoleSignerLedger(g: Config, trace: seq<Sys>, k: nat)
    requires Run(g, trace) && k < |trace| && SoleSigner(trace[k]) && trace[k].origin.Some?
    ensures var s := trace[k];
            && s.chain.blocks != []
            && (forall id, n :: id in s.store.intents && s.origin.value <= n <= s.store.intents[id].nonce
                                ==> NonceTaken(s.store, n))
            && (forall a, b :: a in PendingIds(s.store) && b in s.store.intents && a != b
                               ==> s.store.intents[b].nonce < s.store.intents[a].nonce)
            && (forall n :: s.origin.value <= n < Head(s.chain).nonce ==> Won(s, n))
  {
    RunKeepsInv(g, trace, k);
    var s := trace[k];
    forall n | s.origin.value <= n < Head(s.chain).nonce ensures Won(s, n) {
      SoleSignerWon(g, s, n);
    }
    forall id, n | id in s.store.intents && s.origin.value <= n <= s.store.intents[id].nonce
      ensures NonceTaken(s.store, n)
    {
      if n < s.store.intents[id].nonce {
        assert s.chain.blocks[s.chain.settled].nonce <= Head(s.chain).nonce;
        assert Won(s, n);
      }
    }
  }

  /** An intent owns the nonce and one of its attempts was mined. */
  ghost predicate Won(s: Sys, n: nat) {
    exists id, tx :: id in s.store.intents && s.store.intents[id].nonce == n && MinedAttempt(s, id, tx)
  }

  lemma SoleSignerWon(g: Config, s: Sys, n: nat)
    requires Inv(g, s) && SoleSigner(s) && s.origin.Some?
    requires s.origin.value <= n < Head(s.chain).nonce
    ensures Won(s, n)
  {
    var tx := s.chain.spender[n];
    assert OwnMined(g, s.chain, tx);
    assert Recorded(s.store, tx);
    var id :| id in s.store.subs && HasHash(s.store.subs[id], HashOf(tx));
    AttemptIsIntent(g, s, id, tx);
    assert MinedAttempt(s, id, tx);
  }

  /** What is accounted for is not orphaned. */
  lemma AccountedOrOrphaned(r: Records, n: nat)
    requires Keyed(r) && Accounted(r, n)
    ensures !Orphaned(r, n)
  {
    var id :| id in r.intents && r.intents[id].nonce == n && id in r.facts && !r.facts[id].txHash.ZeroHash?;
  }

  /** A nonce settled as something never recorded stops the floor for good: in no
      continuation of the run is it accounted for, or passed. */
  lemma RefusedForGood(g: Config, trace: seq<Sys>, j: nat, k: nat, id: ID)
    requires Run(g, trace) && j <= k < |trace|
    requires id in trace[j].store.facts && trace[j].store.facts[id].txHash.ZeroHash?
    ensures id in trace[j].store.intents
    ensures var n := trace[j].store.intents[id].nonce;
            && Orphaned(trace[k].store, n) && !Accounted(trace[k].store, n)
            && trace[k].store.floor.Some? && trace[k].store.floor.value <= n
  {
    RunKeepsInv(g, trace, j);
    RunKeepsInv(g, trace, k);
    RunOnlyGrows(g, trace, j, k);
    var r, n := trace[k].store, trace[j].store.intents[id].nonce;
    assert id in trace[j].store.facts.Keys && id in r.intents && r.intents[id].nonce == n;
    if Accounted(r, n) { AccountedOrOrphaned(r, n); }
  }

  /** An orphaned nonce was spent by something else that signed with the key. */
  lemma OrphanIsForeign(g: Config, s: Sys, n: nat)
    requires Inv(g, s) && s.store.floor.Some? && s.store.floor.value <= n < Spent(s.chain) && Orphaned(s.store, n)
    ensures n in s.chain.spender && s.chain.spender[n] in s.chain.foreign && Intruded(s)
  {
    hide HonestInv, BalanceInv, OneInFlight, ScanInv, IsOutcome, WellBuilt;
    assert s.chain.blocks[s.chain.settled].nonce <= Head(s.chain).nonce;
    var tx := s.chain.spender[n];
    assert OwnMined(g, s.chain, tx);
    if tx in s.chain.ours {
      var id :| id in s.store.subs && HasHash(s.store.subs[id], HashOf(tx));
      AttemptIsIntent(g, s, id, tx);
      assert MinedAttempt(s, id, tx);
      NotZero(g, s, id, tx);
    }
  }

  /** An operation one of whose attempts was mined did not settle as something else. */
  lemma NotZero(g: Config, s: Sys, id: ID, tx: Tx)
    requires RecordsInv(g, s.store) && FactsInv(g, s) && MinedAttempt(s, id, tx) && id in s.store.intents
    ensures !Orphaned(s.store, s.store.intents[id].nonce)
  {
    forall a | a in s.store.facts && s.store.intents[a].nonce == s.store.intents[id].nonce
      ensures !s.store.facts[a].txHash.ZeroHash?
    {
      assert a == id && MaySettle(g, s, a, s.store.facts[a]);
    }
  }

  /** A nonce below a recorded one is never taken later. */
  lemma {:induction false} NeverTakenBelow(g: Config, trace: seq<Sys>, j: nat, k: nat, n: nat, id: ID)
    requires Run(g, trace) && j <= k < |trace| && !NonceTaken(trace[j].store, n)
    requires id in trace[j].store.intents && trace[j].store.intents[id].nonce > n
    ensures !NonceTaken(trace[k].store, n)
    decreases k
  {
    hide Run, EnvEnabled, EnvApply, MayAttempt, MaySettle, MayMoveFloor, WellBuilt, SysLater;
    if j < k {
      NeverTakenBelow(g, trace, j, k - 1, n, id);
      RecordKept(g, trace, j, k - 1, id);
      StepOf(g, trace, k - 1);
      var st :| Enabled(g, trace[k - 1], st) && trace[k] == Apply(g, trace[k - 1], st);
    }
  }

  lemma RecordKept(g: Config, trace: seq<Sys>, j: nat, k: nat, id: ID)
    requires Run(g, trace) && j <= k < |trace| && id in trace[j].store.intents
    ensures id in trace[k].store.intents && trace[k].store.intents[id] == trace[j].store.intents[id]
  {
    hide Later;
    RunOnlyGrows(g, trace, j, k);
  }

  lemma StepOf(g: Config, trace: seq<Sys>, k: nat)
    requires Run(g, trace) && k + 1 < |trace|
    ensures Next(g, trace[k], trace[k + 1])
  {
    assert StepAt(g, trace, k);
  }

  /** A settled nonce that nothing owns was spent by something else, and the floor never
      passes it, unless that very transaction is later recorded as an attempt at a new
      operation on that nonce. It never is once a later nonce is recorded. */
  lemma UnownedForGood(g: Config, trace: seq<Sys>, j: nat, k: nat, n: nat)
    requires Run(g, trace) && j <= k < |trace| && trace[j].store.floor.Some?
    requires trace[j].store.floor.value <= n < Spent(trace[j].chain) && !NonceTaken(trace[j].store, n)
    ensures n in trace[j].chain.spender && trace[j].chain.spender[n] in trace[j].chain.foreign
    ensures trace[k].store.floor.Some?
    ensures trace[k].store.floor.value <= n
            || exists id :: id in trace[k].store.intents && id !in trace[j].store.intents
                            && trace[k].store.intents[id].nonce == n
                            && MinedAttempt(trace[k], id, trace[j].chain.spender[n])
    ensures (exists x :: x in trace[j].store.intents && trace[j].store.intents[x].nonce > n) ==>
              trace[k].store.floor.value <= n
  {
    RunKeepsInv(g, trace, j);
    OrphanIsForeign(g, trace[j], n);
    FloorKept(g, trace, j, k);
    hide Run, Inv, SysLater;
    if trace[k].store.floor.value > n {
      var id := OwnerOf(g, trace, j, k, n);
      if x :| x in trace[j].store.intents && trace[j].store.intents[x].nonce > n {
        NeverTakenBelow(g, trace, j, k, n, x);
      }
    }
  }

  lemma FloorKept(g: Config, trace: seq<Sys>, j: nat, k: nat)
    requires Run(g, trace) && j <= k < |trace| && trace[j].store.floor.Some?
    ensures trace[k].store.floor.Some? && trace[j].store.floor.value <= trace[k].store.floor.value
  {
    hide Later;
    RunOnlyGrows(g, trace, j, k);
  }

  /** Whatever the floor has passed is owned by an operation that the transaction which
      spent it is an attempt at. */
  lemma OwnerOf(g: Config, trace: seq<Sys>, j: nat, k: nat, n: nat) returns (id: ID)
    requires Run(g, trace) && j <= k < |trace| && trace[j].store.floor.Some? && trace[k].store.floor.Some?
    requires trace[j].store.floor.value <= n < Spent(trace[j].chain) && n < trace[k].store.floor.value
    requires n in trace[j].chain.spender
    ensures id in trace[k].store.intents && trace[k].store.intents[id].nonce == n
    ensures id in trace[j].store.intents ==> NonceTaken(trace[j].store, n)
    ensures MinedAttempt(trace[k], id, trace[j].chain.spender[n])
  {
    RunKeepsInv(g, trace, j);
    RunKeepsInv(g, trace, k);
    RunOnlyGrows(g, trace, j, k);
    var s, t, tx := trace[j], trace[k], trace[j].chain.spender[n];
    assert OwnMined(g, s.chain, tx);
    SpentIsSettled(g, s.chain, tx, s.chain.settled);
    assert OwnMined(g, t.chain, tx);
    assert Accounted(t.store, n);
    id :| id in t.store.intents && t.store.intents[id].nonce == n && id in t.store.facts
          && !t.store.facts[id].txHash.ZeroHash?;
    assert MaySettle(g, t, id, t.store.facts[id]);
    var u := t.store.facts[id].txHash.tx;
    AttemptIsIntent(g, t, id, u);
    assert OwnMined(g, t.chain, u);
  }

  // ----- retries -----

  /** Over every run the attempts at an intent differ only in their fees: the tip
      never exceeds the cap, each retry raises both by more than an eighth, they
      compound geometrically, and no two attempts are the same transaction. */
  lemma RetriesCompound(g: Config, trace: seq<Sys>, k: nat, id: ID, j: nat, n: nat)
    requires Run(g, trace) && k < |trace| && j < n < |Subs(trace[k].store, id)|
    ensures var subs := Subs(trace[k].store, id);
            && 0 < subs[j].tip <= subs[j].feeCap && 0 < subs[n].tip <= subs[n].feeCap
            && subs[j].tip < subs[n].tip && subs[j].feeCap < subs[n].feeCap && subs[j].gas == subs[n].gas
            && Pow(8, n) * subs[n].feeCap >= Pow(9, n) * subs[0].feeCap
            && Pow(8, n) * subs[n].tip >= Pow(9, n) * subs[0].tip
            && subs[j].txHash != subs[n].txHash
  {
    RunKeepsInv(g, trace, k);
    var r := trace[k].store;
    assert id in r.subs.Keys;
    var subs := Subs(r, id);
    assert AttemptsOf(g, r.intents[id], subs);
    assert FeeRule(subs[..j], subs[j]) && FeeRule(subs[..n], subs[n]);
    GeometricGrowth(subs, n);
    GeometricGrowth(subs, j);
    AttemptsDiffer(g, r.intents[id], subs, j, n);
  }

  // ----- scanning -----

  /** The key is where the chain holds a transfer event of the token to the account, of a
      positive amount, from somebody else, not removed, in an observed block. */
  ghost predicate ReceivedAt(g: Config, c: Chain, key: LogKey, d: Deposit) {
    && key.txHash.HashOf? && key.txHash.tx in c.receipts
    && var r := c.receipts[key.txHash.tx];
    && r.firstIndex <= key.index < r.firstIndex + |r.logs|
    && var l := r.logs[key.index - r.firstIndex];
    && !l.removed && l.address == g.token && |l.topics| == 3 && |l.data| >= 32
    && l.topics[0] == 0xddf252ad1be2c89b_69c2b068fc378daa_952ba7f163c4a116_28f55a4df523b3ef
    && l.topics[1] % ADDRESS_LIMIT == d.from != g.account && l.topics[2] == g.account
    && 0 < BigEndian(l.data[|l.data| - 32..]) == d.amount && g.fromBlock <= r.block == d.block
  }

  /** In every reachable state, including after a crash in the middle of a scan, the
      recorded deposits up to the cursor are exactly what was received from the first
      block to the cursor, each once, and none lies beyond the settled head. */
  lemma ScanIsFilter(g: Config, trace: seq<Sys>, k: nat, key: LogKey, d: Deposit)
    requires Run(g, trace) && k < |trace|
    ensures var s := trace[k];
            && (key in s.store.deposits && s.store.deposits[key] == d ==>
                  ReceivedAt(g, s.chain, key, d) && d.block <= s.chain.settled)
            && (s.store.cursor.Some? && d.block <= s.store.cursor.value ==>
                  ((key in s.store.deposits && s.store.deposits[key] == d) <==> ReceivedAt(g, s.chain, key, d)))
  {
    RunKeepsInv(g, trace, k);
    hide ChainInv, BalanceInv, RecordsInv, AttemptsInv, WriteAhead, OneInFlight, FactsInv, FloorInv;
    ReceivedIsDeposit(g, trace[k].chain, key, d);
  }

  lemma ReceivedIsDeposit(g: Config, c: Chain, key: LogKey, d: Deposit)
    ensures ReceivedAt(g, c, key, d) <==> DepositAt(g, c, key) == Some(d)
  {
  }
}
