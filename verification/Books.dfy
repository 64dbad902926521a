/** Checking the books against the chain at a settled block (README.md:383-400). */
module Books {
  import opened Types
  import opened Sums
  import opened Records
  import opened Chain
  import opened Protocol
  import opened Lifecycle

  // ----- what the records say -----

  ghost function DepositsUpTo(r: Records, block: nat): set<LogKey> {
    set k | k in r.deposits && r.deposits[k].block <= block
  }

  ghost function DepositAmount(r: Records): LogKey -> int {
    (k: LogKey) => if k in r.deposits then r.deposits[k].amount else 0
  }

  /** The operations whose fact says they executed at or before a block. */
  ghost function ExecutedUpTo(r: Records, block: nat): set<ID> {
    set id | id in r.facts && id in r.intents && r.facts[id].executed && r.facts[id].block <= block
  }

  /** What RefillCost answers for an executed refill (status.go:151). */
  ghost function RefillCost(g: Config, s: Sys, f: Fact): Option<int> {
    if f.txHash.HashOf? && f.txHash.tx in s.chain.receipts then
      var spent := SentValues(s.chain.receipts[f.txHash.tx].logs, g.token, g.account);
      if |spent| == 1 then Some(spent[0]) else None
    else None
  }

  /** What the host books for an executed operation: a payment's amount, a refill's
      cost. */
  ghost function Booked(g: Config, s: Sys): ID -> int {
    (id: ID) =>
      if id in s.store.intents && id in s.store.facts then
        if s.store.intents[id].kind.Refill? then
          match RefillCost(g, s, s.store.facts[id]) case Some(v) => v case None => 0
        else s.store.intents[id].amount
      else 0
  }

  /** The part of that which never left the account. */
  ghost function SelfPaid(g: Config, s: Sys): ID -> int {
    (id: ID) =>
      if id in s.store.intents && id in s.store.facts then
        var i, f := s.store.intents[id], s.store.facts[id];
        if !i.kind.Refill? then (if i.to == g.account then i.amount else 0)
        else if RefillCost(g, s, f).Some? then RefillCost(g, s, f).value - OutSum(g, s.chain.receipts[f.txHash.tx].logs)
        else 0
      else 0
  }

  /** An executed operation whose money went back to the account: a payment to itself,
      or a refill whose one transfer did. */
  ghost predicate PaidItself(g: Config, s: Sys, id: ID)
    requires id in s.store.intents && id in s.store.facts
  {
    var i, f := s.store.intents[id], s.store.facts[id];
    if !i.kind.Refill? then i.to == g.account
    else RefillCost(g, s, f).Some? && RefillCost(g, s, f).value > 0
         && OutSum(g, s.chain.receipts[f.txHash.tx].logs) == 0
  }

  /** The host can book the operation: RefillCost answers, if it is a refill. */
  ghost predicate Priced(g: Config, s: Sys, id: ID)
    requires id in s.store.intents && id in s.store.facts
  {
    s.store.intents[id].kind.Refill? ==> RefillCost(g, s, s.store.facts[id]).Some?
  }

  ghost function Spending(g: Config, s: Sys): ID -> int {
    (id: ID) => Booked(g, s)(id) - SelfPaid(g, s)(id)
  }

  // ----- what the chain says -----

  ghost function BalanceBefore(g: Config, s: Sys): int {
    if 0 < g.fromBlock <= |s.chain.blocks| then s.chain.blocks[g.fromBlock - 1].balance else s.opening
  }

  ghost function Window(g: Config, c: Chain, block: nat): set<Tx> {
    set tx | tx in c.receipts && g.fromBlock <= c.receipts[tx].block <= block
  }

  ghost function InOf(g: Config, c: Chain): Tx -> int {
    (tx: Tx) => if tx in c.receipts then InSum(g, c.receipts[tx].logs) else 0
  }

  ghost function OutOf(g: Config, c: Chain): Tx -> int {
    (tx: Tx) => if tx in c.receipts then OutSum(g, c.receipts[tx].logs) else 0
  }

  /** The hypotheses of the audit: the scan has reached the block; every operation
      whose nonce is spent there has been asked after, and every executed refill
      priced; and what the account itself sent from the first observed block on is
      exactly what is recorded here. */
  ghost predicate Auditable(g: Config, s: Sys, block: nat) {
    && block <= s.chain.settled && g.fromBlock <= block + 1
    && s.store.cursor.Some? && block <= s.store.cursor.value
    && (forall id :: id in s.store.intents && s.store.intents[id].nonce < NonceAt(s.chain, block) ==>
        id in s.store.facts)
    && (forall id :: id in ExecutedUpTo(s.store, block) ==> Priced(g, s, id))
    && (forall tx :: OwnMined(g, s.chain, tx) && s.chain.receipts[tx].block <= block ==>
          (Recorded(s.store, tx) <==> g.fromBlock <= s.chain.receipts[tx].block))
  }

  // ----- the chain's side splits into money in and money out -----

  lemma {:induction false} NetSplits(g: Config, logs: seq<Log>)
    requires forall l :: l in logs ==> !l.removed && (IsTransfer(g, l) ==> WellFormed(l))
    ensures Net(g, logs) == InSum(g, logs) - OutSum(g, logs)
  {
    if logs != [] {
      var l := logs[|logs| - 1];
      assert l in logs;
      NetSplits(g, logs[..|logs| - 1]);
    }
  }

  lemma WindowNet(g: Config, s: Sys, block: nat)
    requires BalanceInv(g, s.chain, s.opening)
    requires block < |s.chain.blocks| && g.fromBlock <= block + 1
    ensures s.chain.blocks[block].balance == BalanceBefore(g, s) + Sum(Window(g, s.chain, block), NetOf(g, s.chain))
  {
    var c := s.chain;
    var window := Window(g, c, block);
    if g.fromBlock == 0 {
      assert MinedUpTo(c, block) == window;
    } else {
      var before := MinedUpTo(c, g.fromBlock - 1);
      assert MinedUpTo(c, block) == before + window;
      SumUnion(before, window, NetOf(g, c));
    }
  }

  lemma WindowBalance(g: Config, s: Sys, block: nat)
    requires HonestInv(g, s.chain) && BalanceInv(g, s.chain, s.opening)
    requires block < |s.chain.blocks| && g.fromBlock <= block + 1
    ensures s.chain.blocks[block].balance
            == BalanceBefore(g, s) + Sum(Window(g, s.chain, block), InOf(g, s.chain))
               - Sum(Window(g, s.chain, block), OutOf(g, s.chain))
  {
    var c := s.chain;
    WindowNet(g, s, block);
    forall tx | tx in Window(g, c, block) ensures NetOf(g, c)(tx) == InOf(g, c)(tx) - OutOf(g, c)(tx) {
      NetOfSplits(g, c, tx);
    }
    SumMinus(Window(g, c, block), InOf(g, c), OutOf(g, c), NetOf(g, c));
  }

  lemma NetOfSplits(g: Config, c: Chain, tx: Tx)
    requires HonestInv(g, c) && tx in c.receipts
    ensures NetOf(g, c)(tx) == InOf(g, c)(tx) - OutOf(g, c)(tx)
  {
    assert Honest(g, tx, c.blocks[c.receipts[tx].block].time, c.receipts[tx].success, c.receipts[tx].logs);
    NetSplits(g, c.receipts[tx].logs);
  }

  // ----- money in is what the scan recorded -----

  ghost function DepositValue(g: Config, c: Chain): LogKey -> int {
    (k: LogKey) => match DepositAt(g, c, k) case Some(d) => d.amount case None => 0
  }

  /** The deposits among the first n logs of a transaction. */
  ghost function KeysOf(g: Config, c: Chain, tx: Tx, n: nat): set<LogKey>
    requires tx in c.receipts
  {
    set i | 0 <= i < n && DepositAt(g, c, KeyAt(c, tx, i)).Some? :: KeyAt(c, tx, i)
  }

  ghost function KeyAt(c: Chain, tx: Tx, i: nat): LogKey
    requires tx in c.receipts
  {
    LogKey(HashOf(tx), c.receipts[tx].firstIndex + i)
  }

  lemma KeyWorth(g: Config, c: Chain, tx: Tx, i: nat)
    requires tx in c.receipts && g.fromBlock <= c.receipts[tx].block && i < |c.receipts[tx].logs|
    ensures DepositValue(g, c)(KeyAt(c, tx, i)) == In(g, c.receipts[tx].logs[i])
    ensures DepositAt(g, c, KeyAt(c, tx, i)).None? ==> In(g, c.receipts[tx].logs[i]) == 0
  {
  }

  lemma {:induction false} KeysWorth(g: Config, c: Chain, tx: Tx, n: nat)
    requires tx in c.receipts && g.fromBlock <= c.receipts[tx].block && n <= |c.receipts[tx].logs|
    ensures Sum(KeysOf(g, c, tx, n), DepositValue(g, c)) == InSum(g, c.receipts[tx].logs[..n])
  {
    hide DepositAt;
    if n > 0 {
      var r := c.receipts[tx];
      var k := KeyAt(c, tx, n - 1);
      KeyWorth(g, c, tx, n - 1);
      KeysWorth(g, c, tx, n - 1);
      assert r.logs[..n][..n - 1] == r.logs[..n - 1];
      if DepositAt(g, c, k).Some? {
        assert KeysOf(g, c, tx, n) == KeysOf(g, c, tx, n - 1) + {k};
        SumAdd(KeysOf(g, c, tx, n - 1), k, DepositValue(g, c));
      } else {
        assert KeysOf(g, c, tx, n) == KeysOf(g, c, tx, n - 1);
      }
    }
  }

  lemma {:induction false} DepositsMatch(g: Config, c: Chain, txs: set<Tx>, keys: set<LogKey>)
    requires forall tx :: tx in txs ==> tx in c.receipts && g.fromBlock <= c.receipts[tx].block
    requires forall k :: k in keys <==> DepositAt(g, c, k).Some? && k.txHash.tx in txs
    ensures Sum(keys, DepositValue(g, c)) == Sum(txs, InOf(g, c))
    decreases txs
  {
    if txs == {} {
      assert keys == {};
    } else {
      var tx :| tx in txs;
      var r := c.receipts[tx];
      var mine := KeysOf(g, c, tx, |r.logs|);
      forall k | k in keys && k.txHash == HashOf(tx) ensures k in mine {
        assert k == KeyAt(c, tx, k.index - r.firstIndex);
      }
      KeysWorth(g, c, tx, |r.logs|);
      assert r.logs[..|r.logs|] == r.logs;
      DepositsMatch(g, c, txs - {tx}, keys - mine);
      assert keys == (keys - mine) + mine;
      SumUnion(keys - mine, mine, DepositValue(g, c));
      SumTake(txs, tx, InOf(g, c));
    }
  }

  lemma MoneyIn(g: Config, s: Sys, block: nat)
    requires ScanInv(g, s) && s.store.cursor.Some? && block <= s.store.cursor.value
    ensures Sum(DepositsUpTo(s.store, block), DepositAmount(s.store))
        == Sum(Window(g, s.chain, block), InOf(g, s.chain))
  {
    var keys := DepositsUpTo(s.store, block);
    DepositsMatch(g, s.chain, Window(g, s.chain, block), keys);
    SumSame(keys, DepositAmount(s.store), DepositValue(g, s.chain));
  }

  // ----- money out is what the executed operations booked -----

  lemma FactOfAttempt(g: Config, s: Sys, id: ID, tx: Tx, f: Fact)
    requires ChainInv(g, s.chain) && RecordsInv(g, s.store) && AttemptsInv(g, s.store)
    requires id in s.store.intents
    requires MinedAttempt(s, id, tx) && IsOutcome(g, s, s.store.intents[id], f)
    ensures f.txHash == HashOf(tx) && f.block == s.chain.receipts[tx].block
    ensures f.executed == Executed(g, s.store.intents[id], s.chain.receipts[tx])
  {
    OneMinedAttempt(g, s, id, tx, f.txHash.tx);
  }

  /** A single sent transfer is the whole of what left, or, sent to the account
      itself, nothing. */
  lemma {:induction false} SentSingle(g: Config, logs: seq<Log>)
    ensures var spent := SentValues(logs, g.token, g.account);
            && (spent == [] ==> OutSum(g, logs) == 0)
            && (|spent| == 1 ==> 0 <= spent[0] && (OutSum(g, logs) == spent[0] || OutSum(g, logs) == 0))
  {
    if logs != [] {
      SentSingle(g, logs[..|logs| - 1]);
    }
  }

  /** What a mined attempt took out of the account is what its operation books, less
      what came straight back. */
  lemma AttemptSpends(g: Config, s: Sys, id: ID, tx: Tx, f: Fact)
    requires ChainInv(g, s.chain) && RecordsInv(g, s.store) && AttemptsInv(g, s.store)
    requires id in s.store.intents && id in s.store.facts && f == s.store.facts[id]
    requires MinedAttempt(s, id, tx) && IsOutcome(g, s, s.store.intents[id], f)
    ensures f.txHash == HashOf(tx) && f.block == s.chain.receipts[tx].block
    ensures f.executed ==> 0 <= SelfPaid(g, s)(id) && (SelfPaid(g, s)(id) != 0 <==> PaidItself(g, s, id))
    ensures (f.executed ==> Priced(g, s, id)) ==>
              OutOf(g, s.chain)(tx) == (if f.executed then Spending(g, s)(id) else 0)
  {
    FactOfAttempt(g, s, id, tx, f);
    var i, r := s.store.intents[id], s.chain.receipts[tx];
    assert i.Valid();
    if i.kind.Refill? {
      SentSingle(g, r.logs);
      assert Honest(g, tx, s.chain.blocks[r.block].time, r.success, r.logs);
    } else {
      AttemptPays(g, s, id, tx);
    }
    SpendingIs(g, s, id, f);
  }

  lemma SpendingIs(g: Config, s: Sys, id: ID, f: Fact)
    requires id in s.store.intents && id in s.store.facts && f == s.store.facts[id]
    ensures var i := s.store.intents[id];
            && (!i.kind.Refill? ==> Spending(g, s)(id) == if i.to == g.account then 0 else i.amount)
            && (i.kind.Refill? && RefillCost(g, s, f).Some? ==>
                  Spending(g, s)(id) == OutSum(g, s.chain.receipts[f.txHash.tx].logs))
  {
    var booked, selfPaid := Booked(g, s)(id), SelfPaid(g, s)(id);
    assert Spending(g, s)(id) == booked - selfPaid;
  }

  ghost function OwnerOf(s: Sys): Tx -> ID {
    (tx: Tx) => if exists id :: id in s.store.subs && HasHash(s.store.subs[id], HashOf(tx))
                then var id :| id in s.store.subs && HasHash(s.store.subs[id], HashOf(tx)); id
                else Named(0)
  }

  /** A transaction that took money out belongs to an executed operation. */
  lemma SpenderIsBooked(g: Config, s: Sys, block: nat, tx: Tx)
    requires Inv(g, s) && Auditable(g, s, block)
    requires tx in Window(g, s.chain, block) && OutOf(g, s.chain)(tx) != 0
    ensures var id := OwnerOf(s)(tx);
            && id in ExecutedUpTo(s.store, block) && s.store.facts[id].txHash == HashOf(tx)
            && Spending(g, s)(id) == OutOf(g, s.chain)(tx)
  {
    var r := s.chain.receipts[tx];
    if tx.sender != g.account {
      assert Honest(g, tx, s.chain.blocks[r.block].time, r.success, r.logs);
      SpendsNothing(g, r.logs);
      assert false;
    }
    assert OwnMined(g, s.chain, tx);
    assert Recorded(s.store, tx);
    var id := OwnerOf(s)(tx);
    AttemptIsIntent(g, s, id, tx);
    SpentIsSettled(g, s.chain, tx, block);
    assert MaySettle(g, s, id, s.store.facts[id]);
    assert MinedAttempt(s, id, tx);
    AttemptSpends(g, s, id, tx, s.store.facts[id]);
  }

  lemma {:induction false} SpendsNothing(g: Config, logs: seq<Log>)
    requires forall l :: l in logs && SentLog(l, g.token, g.account) ==> Word(l) == 0
    ensures OutSum(g, logs) == 0
  {
    if logs != [] {
      assert logs[|logs| - 1] in logs;
      SpendsNothing(g, logs[..|logs| - 1]);
    }
  }

  /** An executed operation was carried by one transaction in the window. */
  lemma BookedWasSpent(g: Config, s: Sys, block: nat, id: ID) returns (tx: Tx)
    requires Inv(g, s) && Auditable(g, s, block) && id in ExecutedUpTo(s.store, block)
    ensures tx in Window(g, s.chain, block) && OutOf(g, s.chain)(tx) == Spending(g, s)(id)
    ensures OutOf(g, s.chain)(tx) != 0 ==> OwnerOf(s)(tx) == id
  {
    assert MaySettle(g, s, id, s.store.facts[id]);
    tx := s.store.facts[id].txHash.tx;
    AttemptIsIntent(g, s, id, tx);
    AttemptSpends(g, s, id, tx, s.store.facts[id]);
    assert OwnMined(g, s.chain, tx);
    if OutOf(g, s.chain)(tx) != 0 {
      SpenderIsBooked(g, s, block, tx);
      var other := OwnerOf(s)(tx);
      assert MaySettle(g, s, other, s.store.facts[other]);
      AttemptIsIntent(g, s, other, tx);
    }
  }

  lemma MoneyOut(g: Config, s: Sys, block: nat)
    requires Inv(g, s) && Auditable(g, s, block)
    ensures Sum(Window(g, s.chain, block), OutOf(g, s.chain)) == Sum(ExecutedUpTo(s.store, block), Spending(g, s))
  {
    var txs, ids := Window(g, s.chain, block), ExecutedUpTo(s.store, block);
    var out, spend, owner := OutOf(g, s.chain), Spending(g, s), OwnerOf(s);
    forall tx | tx in txs && out(tx) != 0
      ensures owner(tx) in ids && spend(owner(tx)) == out(tx) && s.store.facts[owner(tx)].txHash == HashOf(tx)
    {
      SpenderIsBooked(g, s, block, tx);
    }
    forall id | id in ids && spend(id) != 0
      ensures exists tx :: tx in txs && out(tx) != 0 && owner(tx) == id
    {
      var tx := BookedWasSpent(g, s, block, id);
    }
    SumMatch(txs, ids, out, spend, owner);
  }

  /** Every settled fact lies at or below the settled head. */
  lemma FactsAreSettled(g: Config, s: Sys, id: ID)
    requires Inv(g, s) && id in s.store.facts && s.store.facts[id].executed
    ensures id in s.store.intents && s.store.facts[id].block <= s.chain.settled
    ensures s.store.facts[id].txHash.HashOf? && s.store.facts[id].txHash.tx in s.chain.receipts
    ensures s.chain.receipts[s.store.facts[id].txHash.tx].block == s.store.facts[id].block
  {
    assert MaySettle(g, s, id, s.store.facts[id]);
    AttemptIsIntent(g, s, id, s.store.facts[id].txHash.tx);
    SpentIsSettled(g, s.chain, s.store.facts[id].txHash.tx, s.chain.settled);
  }

  /** An executed operation's records and receipt are the same later. */
  lemma FactStands(g: Config, s: Sys, t: Sys, x: ID)
    requires Inv(g, s) && SysLater(g, s, t) && x in s.store.facts && s.store.facts[x].executed
    ensures x in t.store.facts && t.store.facts[x] == s.store.facts[x] && s.store.facts[x].block <= s.chain.settled
    ensures x in s.store.intents && x in t.store.intents && t.store.intents[x] == s.store.intents[x]
    ensures var h := s.store.facts[x].txHash;
            h.HashOf? && h.tx in s.chain.receipts && h.tx in t.chain.receipts
            && t.chain.receipts[h.tx] == s.chain.receipts[h.tx]
  {
    FactsAreSettled(g, s, x);
    hide Inv;
  }

  /** With one signer, what the host does before it compares is enough: scan past the
      block, and ask after every operation, each of which either has a fact or was
      still pending at the block. The key may have an earlier life, if it ended before
      the first observed block. */
  lemma SoleSignerAuditable(g: Config, trace: seq<Sys>, n: nat, block: nat)
    requires Run(g, trace) && n < |trace| && SoleSigner(trace[n]) && trace[n].origin.Some?
    requires block <= trace[n].chain.settled && g.fromBlock <= block + 1
    requires trace[n].store.cursor.Some? && block <= trace[n].store.cursor.value
    requires forall id :: id in trace[n].store.intents ==>
               id in trace[n].store.facts || trace[n].store.intents[id].nonce >= NonceAt(trace[n].chain, block)
    requires forall id :: id in ExecutedUpTo(trace[n].store, block) ==> Priced(g, trace[n], id)
    requires forall tx :: OwnMined(g, trace[n].chain, tx) ==>
               (tx.nonce < trace[n].origin.value <==> trace[n].chain.receipts[tx].block < g.fromBlock)
    ensures Auditable(g, trace[n], block)
  {
    RunKeepsInv(g, trace, n);
    var s := trace[n];
    forall tx | OwnMined(g, s.chain, tx) && s.chain.receipts[tx].block <= block
      ensures Recorded(s.store, tx) <==> g.fromBlock <= s.chain.receipts[tx].block
    {
      if Recorded(s.store, tx) {
        var id :| id in s.store.subs && HasHash(s.store.subs[id], HashOf(tx));
        AttemptIsIntent(g, s, id, tx);
      }
    }
  }

  /** The books balance. In every reachable state, at every auditable block, the
      chain's balance is the opening balance, plus the recorded deposits, minus what
      was booked for the executed operations, plus what the account paid itself,
      which the scanner does not count as incoming. */
  lemma BooksBalance(g: Config, trace: seq<Sys>, n: nat, block: nat)
    requires Run(g, trace) && n < |trace| && Auditable(g, trace[n], block)
    ensures var s := trace[n];
            var ids := ExecutedUpTo(s.store, block);
            block < |s.chain.blocks|
            && s.chain.blocks[block].balance
               == BalanceBefore(g, s)
                  + Sum(DepositsUpTo(s.store, block), DepositAmount(s.store))
                  - Sum(ids, Booked(g, s))
                  + Sum(ids, SelfPaid(g, s))
  {
    RunKeepsInv(g, trace, n);
    var s := trace[n];
    WindowBalance(g, s, block);
    MoneyIn(g, s, block);
    MoneyOut(g, s, block);
    SumMinus(ExecutedUpTo(s.store, block), Booked(g, s), SelfPaid(g, s), Spending(g, s));
  }

  /** The host's ledger agrees with the chain exactly when no executed operation paid
      the account itself. */
  lemma BooksBalanceExactly(g: Config, trace: seq<Sys>, n: nat, block: nat)
    requires Run(g, trace) && n < |trace| && Auditable(g, trace[n], block)
    ensures var s := trace[n];
            var ids := ExecutedUpTo(s.store, block);
            block < |s.chain.blocks|
            && (s.chain.blocks[block].balance
                == BalanceBefore(g, s) + Sum(DepositsUpTo(s.store, block), DepositAmount(s.store))
                   - Sum(ids, Booked(g, s))
                <==> forall id :: id in ids ==> !PaidItself(g, s, id))
  {
    hide BalanceBefore, PaidItself, SelfPaid, Booked, Auditable;
    BooksBalance(g, trace, n, block);
    var s := trace[n];
    var ids := ExecutedUpTo(s.store, block);
    forall id | id in ids
      ensures SelfPaid(g, s)(id) >= 0 && (SelfPaid(g, s)(id) != 0 <==> PaidItself(g, s, id))
    {
      SelfPaidIs(g, trace, n, id);
    }
    SumZero(ids, SelfPaid(g, s));
  }

  lemma SelfPaidIs(g: Config, trace: seq<Sys>, n: nat, id: ID)
    requires Run(g, trace) && n < |trace| && id in trace[n].store.facts && trace[n].store.facts[id].executed
    ensures id in trace[n].store.intents
    ensures SelfPaid(g, trace[n])(id) >= 0 && (SelfPaid(g, trace[n])(id) != 0 <==> PaidItself(g, trace[n], id))
  {
    RunKeepsInv(g, trace, n);
    var s := trace[n];
    assert MaySettle(g, s, id, s.store.facts[id]);
    AttemptSpends(g, s, id, s.store.facts[id].txHash.tx, s.store.facts[id]);
  }

  /** RefillCost answers exactly when the transaction that won sent one transfer. Its
      answer is then what left the account, unless the transfer came straight back;
      and a venue that takes its price once leaves one transfer, within the recorded
      bound. */
  lemma RefillCostIsExact(g: Config, trace: seq<Sys>, n: nat, id: ID)
    requires Run(g, trace) && n < |trace| && id in trace[n].store.facts && trace[n].store.facts[id].executed
    ensures id in trace[n].store.intents
    ensures trace[n].store.intents[id].kind.Refill? ==>
              var s, f := trace[n], trace[n].store.facts[id];
              && f.txHash.HashOf? && f.txHash.tx in s.chain.receipts
              && var logs := s.chain.receipts[f.txHash.tx].logs;
              && (RefillCost(g, s, f).Some? <==> |SentValues(logs, g.token, g.account)| == 1)
              && (RefillCost(g, s, f).Some? && !PaidItself(g, s, id) ==> OutSum(g, logs) == RefillCost(g, s, f).value)
              && (BoughtOnce(g, logs, s.store.intents[id].amount) ==>
                    RefillCost(g, s, f).Some? && 0 <= RefillCost(g, s, f).value <= s.store.intents[id].amount
                    && OutSum(g, logs) == RefillCost(g, s, f).value)
  {
    RunKeepsInv(g, trace, n);
    var s := trace[n];
    var f, i := s.store.facts[id], s.store.intents[id];
    assert MaySettle(g, s, id, f);
    var logs := s.chain.receipts[f.txHash.tx].logs;
    SentSingle(g, logs);
    if BoughtOnce(g, logs, i.amount) { BoughtOnceSpends(g, logs, i.amount); }
    hide BoughtOnce, SentValues, OutSum, IsOutcome, Inv;
  }

  lemma BoughtOnceSpends(g: Config, logs: seq<Log>, maxInput: int)
    requires BoughtOnce(g, logs, maxInput)
    ensures var spent := SentValues(logs, g.token, g.account);
            |spent| == 1 && 0 <= spent[0] <= maxInput && OutSum(g, logs) == spent[0]
  {
    var k :| 0 <= k < |logs| && SentLog(logs[k], g.token, g.account)
             && AddressOf(logs[k].topics[2]) != g.account && Word(logs[k]) <= maxInput
             && forall j :: 0 <= j < |logs| && j != k ==> !SentLog(logs[j], g.token, g.account);
    SentOnce(g, logs, k, g.account);
  }
}
