/** Nothing stays stuck, and pending means what it says. An operation whose nonce is
    unspent at the settled head may still be confirmed, a refill exactly while its
    deadline has not settled; and with one signer every run can be continued until
    everything recorded is resolved. */
module Progress {
  import opened Types
  import opened Fees
  import opened Records
  import opened Chain
  import opened Protocol
  import Lifecycle
  import Router

  function Last(trace: seq<Sys>): Sys
    requires trace != []
  {
    trace[|trace| - 1]
  }

  /** One more step of a run. */
  lemma Extend(g: Config, trace: seq<Sys>, st: Step) returns (more: seq<Sys>)
    requires Run(g, trace) && Enabled(g, Last(trace), st)
    ensures Run(g, more) && trace < more && Last(more) == Apply(g, Last(trace), st) && Inv(g, Last(more))
  {
    hide Enabled, Inv, Apply, Init;
    more := trace + [Apply(g, Last(trace), st)];
    ExtendRun(g, trace, st);
    RunKeepsInv(g, more, |more| - 1);
  }

  lemma ExtendThrice(g: Config, trace: seq<Sys>, a: Step, b: Step, c: Step) returns (more: seq<Sys>)
    requires Run(g, trace) && Enabled(g, Last(trace), a)
    requires var t := Apply(g, Last(trace), a); Enabled(g, t, b) && Enabled(g, Apply(g, t, b), c)
    ensures Run(g, more) && trace < more && Last(more) == Apply(g, Apply(g, Apply(g, Last(trace), a), b), c)
  {
    hide Run, Enabled, Apply, Inv;
    more := Extend(g, trace, a);
    more := Extend(g, more, b);
    more := Extend(g, more, c);
  }

  // ----- a mined attempt can be settled -----

  function FactOf(g: Config, s: Sys, i: Intent, tx: Tx): Fact
    requires tx in s.chain.receipts
  {
    Fact(HashOf(tx), s.chain.receipts[tx].block, Executed(g, i, s.chain.receipts[tx]))
  }

  function SettleAll(s: Sys): Step {
    Env(Settle(if s.chain.blocks == [] then 0 else |s.chain.blocks| - 1))
  }

  lemma MinedBelowTop(g: Config, s: Sys, id: ID, tx: Tx)
    requires ChainInv(g, s.chain) && RecordsInv(g, s.store) && AttemptsInv(g, s.store) && MinedAttempt(s, id, tx)
    ensures s.chain.settled < |s.chain.blocks| && id in s.store.intents && s.store.intents[id].id == id
    ensures s.store.intents[id].nonce < NonceAt(s.chain, |s.chain.blocks| - 1)
  {
    AttemptIsIntent(g, s, id, tx);
    SpentIsSettled(g, s.chain, tx, |s.chain.blocks| - 1);
  }

  lemma MinedSettles(g: Config, s: Sys, id: ID, tx: Tx)
    requires ChainInv(g, s.chain) && RecordsInv(g, s.store) && AttemptsInv(g, s.store)
    requires id in PendingIds(s.store) && MinedAttempt(s, id, tx)
    ensures var f := FactOf(g, s, s.store.intents[id], tx);
            var t := Apply(g, s, SettleAll(s));
            && s.chain.blocks != [] && t == s.(chain := s.chain.(settled := |s.chain.blocks| - 1))
            && Enabled(g, s, SettleAll(s)) && Enabled(g, t, RecordFact(id, f))
            && Apply(g, t, RecordFact(id, f)) == t.(store := PutFact(s.store, id, f))
  {
    hide ChainInv, RecordsInv, AttemptsInv, Executed, HasHash;
    MinedBelowTop(g, s, id, tx);
    var i := s.store.intents[id];
    var t := s.(chain := s.chain.(settled := |s.chain.blocks| - 1));
    assert IsOutcome(g, t, i, FactOf(g, s, i, tx));
  }

  /** At most one operation is unresolved, so resolving it resolves everything. */
  lemma LastOneResolved(g: Config, r: Records, id: ID, f: Fact)
    requires Keyed(r) && OneInFlight(r) && id in PendingIds(r)
    ensures AllResolved(PutFact(r, id, f))
  {
    forall a | a in PendingIds(r) ensures a == id {
      assert r.intents[a].nonce <= r.intents[id].nonce <= r.intents[a].nonce;
    }
    forall a | a in r.intents && a != id ensures a in r.facts {
      assert a !in PendingIds(r);
    }
  }

  lemma SettleMined(g: Config, trace: seq<Sys>, id: ID, tx: Tx) returns (more: seq<Sys>)
    requires Run(g, trace) && id in PendingIds(Last(trace).store) && MinedAttempt(Last(trace), id, tx)
    ensures Run(g, more) && trace < more && AllResolved(Last(more).store)
    ensures Last(more).opening == Last(trace).opening && Last(more).origin == Last(trace).origin
    ensures var s, t := Last(trace), Last(more);
            && s.chain.blocks != [] && t.chain == s.chain.(settled := |s.chain.blocks| - 1)
            && t.store == PutFact(s.store, id, FactOf(g, s, s.store.intents[id], tx))
  {
    var s := Last(trace);
    RunKeepsInv(g, trace, |trace| - 1);
    MinedSettles(g, s, id, tx);
    var f := FactOf(g, s, s.store.intents[id], tx);
    LastOneResolved(g, s.store, id, f);
    hide Run, Inv, Enabled, Apply, Executed, AllResolved;
    var settled := Extend(g, trace, SettleAll(s));
    more := Extend(g, settled, RecordFact(id, f));
  }

  // ----- an unspent nonce can be spent by an attempt -----

  /** Some attempt at the intent is recorded, or is recorded now. */
  lemma Attempted(g: Config, trace: seq<Sys>, id: ID, policy: GasPolicy) returns (more: seq<Sys>, tx: Tx)
    requires Run(g, trace) && id in PendingIds(Last(trace).store)
    ensures Run(g, more) && trace <= more
    ensures Last(more) == Last(trace).(store := Last(trace).store.(subs := Last(more).store.subs))
    ensures HasHash(Subs(Last(more).store, id), HashOf(tx))
    ensures exists sub :: tx == TxFor(g, Last(trace).store.intents[id], sub)
    ensures forall x :: Recorded(Last(more).store, x) ==> Recorded(Last(trace).store, x) || x == tx
  {
    var s := Last(trace);
    RunKeepsInv(g, trace, |trace| - 1);
    var subs := Subs(s.store, id);
    if subs != [] {
      assert AttemptsOf(g, s.store.intents[id], subs);
      more, tx := trace, TxFor(g, s.store.intents[id], subs[0]);
      assert subs[0].txHash == HashOf(tx);
    } else {
      var draft := Submission(ZeroHash, policy.GasLimit(s.store.intents[id].kind), 1, 1);
      tx := TxFor(g, s.store.intents[id], draft);
      var sub := draft.(txHash := HashOf(tx));
      more := Extend(g, trace, RecordAttempt(id, sub));
      assert Subs(Last(more).store, id)[0].txHash == HashOf(tx);
      OnlyThisIsNew(s.store, id, sub, Last(more).store);
    }
  }

  lemma OnlyThisIsNew(r: Records, id: ID, sub: Submission, q: Records)
    requires q == AppendSubmission(r, id, sub)
    ensures forall x :: Recorded(q, x) ==> Recorded(r, x) || HashOf(x) == sub.txHash
  {
    forall x | Recorded(q, x) && HashOf(x) != sub.txHash ensures Recorded(r, x) {
      var a :| a in q.subs && HasHash(q.subs[a], HashOf(x));
      var k :| 0 <= k < |q.subs[a]| && q.subs[a][k].txHash == HashOf(x);
      assert a in r.subs && r.subs[a][k].txHash == HashOf(x);
    }
  }

  lemma NotMinedYet(g: Config, c: Chain, tx: Tx)
    requires ChainInv(g, c) && tx.sender == g.account && tx.nonce >= Head(c).nonce
    ensures tx !in c.receipts
  {
    if tx in c.receipts { SpentIsSettled(g, c, tx, |c.blocks| - 1); }
  }

  /** The next block, no later than the last, with one transaction in it. */
  function OneMore(g: Config, c: Chain, tx: Tx, success: bool, logs: seq<Log>): Chain
    requires c.blocks != []
  {
    c.(ours := c.ours + {tx},
       receipts := c.receipts[tx := Receipt(|c.blocks|, success, 0, logs)],
       spender := c.spender[tx.nonce := tx],
       blocks := c.blocks + [Head(c).(nonce := Head(c).nonce + 1, balance := Head(c).balance + Net(g, logs))])
  }

  lemma MineSteps(g: Config, s: Sys, tx: Tx, success: bool, logs: seq<Log>)
    requires ChainInv(g, s.chain) && Recorded(s.store, tx) && Honest(g, tx, Head(s.chain).time, success, logs)
    requires tx.sender == g.account && tx.nonce == Head(s.chain).nonce
    ensures var t := Apply(g, s, Send(tx));
            var grow := Env(NewBlock(Head(s.chain).time));
            var u := Apply(g, t, grow);
            var mine := Env(Mine(tx, success, 0, logs, Head(s.chain).native));
            && Enabled(g, s, Send(tx)) && Enabled(g, t, grow) && Enabled(g, u, mine)
            && Apply(g, u, mine) == s.(chain := OneMore(g, s.chain, tx, success, logs))
  {
    NotMinedYet(g, s.chain, tx);
    hide NoncesInv, HonestInv, Honest, Recorded, Net;
    var u := Apply(g, Apply(g, s, Send(tx)), Env(NewBlock(Head(s.chain).time)));
    assert Head(u.chain) == Head(s.chain);
    assert Apply(g, u, Env(Mine(tx, success, 0, logs, Head(s.chain).native))).chain.blocks
           == OneMore(g, s.chain, tx, success, logs).blocks;
  }

  /** A recorded attempt at the next nonce can be broadcast and mined, with any receipt
      the trust base allows. */
  lemma MineAttempt(g: Config, trace: seq<Sys>, id: ID, tx: Tx, success: bool, logs: seq<Log>) returns (more: seq<Sys>)
    requires Run(g, trace) && HasHash(Subs(Last(trace).store, id), HashOf(tx)) && Last(trace).chain.blocks != []
    requires Honest(g, tx, Head(Last(trace).chain).time, success, logs) && tx.sender == g.account
    requires tx.nonce == Head(Last(trace).chain).nonce
    ensures Run(g, more) && trace < more
    ensures Last(more) == Last(trace).(chain := OneMore(g, Last(trace).chain, tx, success, logs))
  {
    var s := Last(trace);
    hide Run, Enabled, Apply, Honest, HasHash, Recorded, EnvEnabled, ChainInv, BalanceInv, RecordsInv, AttemptsInv,
        WriteAhead, OneInFlight, FactsInv, FloorInv, ScanInv, OneMore;
    RunKeepsInv(g, trace, |trace| - 1);
    RecordedBy(g, s, id, tx);
    MineSteps(g, s, tx, success, logs);
    var grow, mine := Env(NewBlock(Head(s.chain).time)), Env(Mine(tx, success, 0, logs, Head(s.chain).native));
    more := ExtendThrice(g, trace, Send(tx), grow, mine);
  }

  lemma RecordedBy(g: Config, s: Sys, id: ID, tx: Tx)
    requires Inv(g, s) && HasHash(Subs(s.store, id), HashOf(tx))
    ensures Recorded(s.store, tx)
  {
    assert id in s.store.subs;
  }

  /** The nonce of an unresolved operation is never ahead of the settled head. */
  lemma NextNonceIsIts(g: Config, s: Sys, id: ID)
    requires Inv(g, s) && id in s.store.intents
    ensures s.chain.blocks != [] && s.store.intents[id].nonce <= Spent(s.chain) <= Head(s.chain).nonce
  {
  }

  // ----- pending may still execute -----

  /** Everything above the settled head may be abandoned. */
  lemma Rewind(g: Config, trace: seq<Sys>) returns (more: seq<Sys>)
    requires Run(g, trace)
    ensures Run(g, more) && trace < more && Last(more) == Last(trace).(chain := Last(more).chain)
    ensures var c, d := Last(trace).chain, Last(more).chain;
            && c.settled < |c.blocks| && d.settled == c.settled && d.blocks == c.blocks[..c.settled + 1]
            && (forall x :: x in d.receipts ==> d.receipts[x].block <= c.settled)
            && d.foreign == c.foreign
  {
    var s := Last(trace);
    RunKeepsInv(g, trace, |trace| - 1);
    hide Run, NoncesInv, HonestInv, BalanceInv, RecordsInv, AttemptsInv, WriteAhead, OneInFlight, FactsInv, FloorInv,
        ScanInv;
    more := Extend(g, trace, Env(Reorg(s.chain.settled)));
  }

  /** The event an executing transaction leaves: the payment's own transfer, or a
      refill's payment to its venue. */
  function EventOf(g: Config, i: Intent): Log
    requires 0 <= i.amount
  {
    Router.TransferEvent(g.token, g.account, i.to, i.amount)
  }

  lemma EventExecutes(g: Config, i: Intent, time: nat)
    requires WellBuilt(g, i) && (i.kind.Refill? ==> time <= i.calldata.deadline)
    ensures forall sub :: Honest(g, TxFor(g, i, sub), time, true, [EventOf(g, i)])
    ensures forall r: Receipt :: r.success && r.logs == [EventOf(g, i)] ==> Executed(g, i, r)
  {
    hide Router.TransferEvent, AddressOf, Word;
    var event := EventOf(g, i);
    Router.EventsRead(g.token, g.account, i.to, i.amount);
    assert TransferLog(event, g.token, g.account, i.to, i.amount);
    assert PaidOnce(g, [event], i.to, i.amount) by { assert [event][0] == event; }
    forall r: Receipt | r.success && r.logs == [event] ensures Executed(g, i, r) {
      assert r.logs[0] == event && !event.removed;
    }
  }

  /** Some continuation of the run confirms the operation. */
  ghost predicate MayBeConfirmed(g: Config, trace: seq<Sys>, id: ID) {
    exists more :: Run(g, more) && trace <= more
                   && id in Last(more).store.facts && Last(more).store.facts[id].executed
  }

  /** What one more block that carries the operation out leaves, and nothing else. */
  ghost predicate CarriedOut(g: Config, s: Sys, t: Sys, id: ID, tx: Tx)
    requires id in s.store.intents && 0 <= s.store.intents[id].amount
  {
    && t.store.intents == s.store.intents && t.store.deposits == s.store.deposits && t.store.cursor == s.store.cursor
    && t.opening == s.opening && t.origin == s.origin && t.chain.foreign == s.chain.foreign
    && t.chain.settled == s.chain.settled + 1 == |t.chain.blocks| - 1
    && tx in t.chain.receipts && t.store.facts == s.store.facts[id := Fact(HashOf(tx), t.chain.settled, true)]
    && Recorded(t.store, tx)
    && (forall x :: Recorded(t.store, x) ==> Recorded(s.store, x) || x == tx)
    && (forall x :: x in t.chain.receipts && t.chain.receipts[x].block > s.chain.settled ==> x == tx)
    && t.chain.receipts[tx] == Receipt(t.chain.settled, true, 0, [EventOf(g, s.store.intents[id])])
  }

  /** The operation is not late: a payment never is, a refill while the settled chain's
      time has not passed its deadline. */
  ghost predicate InTime(s: Sys, i: Intent) {
    i.kind.Refill? ==>
      && s.chain.settled < |s.chain.blocks| && i.calldata.RefillCall?
      && s.chain.blocks[s.chain.settled].time <= i.calldata.deadline
  }

  /** At the settled head, with an attempt recorded: how two states lead there. */
  ghost predicate AtSettled(g: Config, s: Sys, b: Sys, id: ID, tx: Tx) {
    && s.chain.settled < |s.chain.blocks| && b == s.(chain := b.chain, store := s.store.(subs := b.store.subs))
    && b.chain.foreign == s.chain.foreign && b.chain.settled == s.chain.settled
    && b.chain.blocks == s.chain.blocks[..s.chain.settled + 1]
    && (forall x :: x in b.chain.receipts ==> b.chain.receipts[x].block <= s.chain.settled)
    && HasHash(Subs(b.store, id), HashOf(tx))
    && (forall x :: Recorded(b.store, x) ==> Recorded(s.store, x) || x == tx)
    && id in s.store.intents && exists sub :: tx == TxFor(g, s.store.intents[id], sub)
  }

  lemma Staged(g: Config, trace: seq<Sys>, id: ID, policy: GasPolicy) returns (more: seq<Sys>, tx: Tx)
    requires Run(g, trace) && id in PendingIds(Last(trace).store)
    ensures Run(g, more) && trace < more && AtSettled(g, Last(trace), Last(more), id, tx)
  {
    var s := Last(trace);
    hide Run, Inv, HasHash, Recorded;
    var rewound := Rewind(g, trace);
    more, tx := Attempted(g, rewound, id, policy);
    SameRecorded(s.store, Last(rewound).store);
  }

  /** Mined there, and settled. */
  ghost predicate MinedThere(g: Config, b: Sys, d: Sys, id: ID, tx: Tx, logs: seq<Log>) {
    && b.chain.blocks != [] && id in b.store.intents
    && var c := b.(chain := OneMore(g, b.chain, tx, true, logs));
    && tx in c.chain.receipts
    && d == c.(chain := c.chain.(settled := |c.chain.blocks| - 1),
               store := PutFact(c.store, id, FactOf(g, c, c.store.intents[id], tx)))
  }

  lemma CarryOut(g: Config, trace: seq<Sys>, id: ID, policy: GasPolicy) returns (more: seq<Sys>, tx: Tx)
    requires Run(g, trace) && id in PendingIds(Last(trace).store)
    requires Last(trace).store.intents[id].nonce >= Spent(Last(trace).chain)
    requires InTime(Last(trace), Last(trace).store.intents[id])
    ensures Run(g, more) && trace < more && AllResolved(Last(more).store)
    ensures 0 <= Last(trace).store.intents[id].amount && CarriedOut(g, Last(trace), Last(more), id, tx)
  {
    var s := Last(trace);
    var i := s.store.intents[id];
    RunKeepsInv(g, trace, |trace| - 1);
    ReadyToCarry(g, s, id);
    hide Run, Inv, Honest, AtSettled, MinedThere, CarriedOut, AllResolved, InTime, WellBuilt, Spent, EventOf;
    var staged, sent := Staged(g, trace, id, policy);
    tx := sent;
    StagedReady(g, s, Last(staged), id, tx);
    more := MineAndSettle(g, staged, id, tx, [EventOf(g, i)]);
    Composed(g, s, Last(staged), Last(more), id, tx);
  }

  /** The attempt is the next transaction there, and may execute. */
  lemma StagedReady(g: Config, s: Sys, b: Sys, id: ID, tx: Tx)
    requires AtSettled(g, s, b, id, tx) && WellBuilt(g, s.store.intents[id]) && id !in s.store.facts
    requires s.store.intents[id].nonce == s.chain.blocks[s.chain.settled].nonce && InTime(s, s.store.intents[id])
    ensures b.chain.blocks != [] && id in PendingIds(b.store) && HasHash(Subs(b.store, id), HashOf(tx))
    ensures tx.sender == g.account && tx.nonce == Head(b.chain).nonce && 0 <= s.store.intents[id].amount
    ensures Honest(g, tx, Head(b.chain).time, true, [EventOf(g, s.store.intents[id])])
  {
    hide Honest, EventOf, Executed;
    var i := s.store.intents[id];
    EventExecutes(g, i, s.chain.blocks[s.chain.settled].time);
  }

  lemma MineAndSettle(g: Config, trace: seq<Sys>, id: ID, tx: Tx, logs: seq<Log>) returns (more: seq<Sys>)
    requires Run(g, trace) && id in PendingIds(Last(trace).store)
    requires HasHash(Subs(Last(trace).store, id), HashOf(tx)) && Last(trace).chain.blocks != []
    requires Honest(g, tx, Head(Last(trace).chain).time, true, logs) && tx.sender == g.account
    requires tx.nonce == Head(Last(trace).chain).nonce
    ensures Run(g, more) && trace < more && AllResolved(Last(more).store)
    ensures MinedThere(g, Last(trace), Last(more), id, tx, logs)
  {
    var s := Last(trace);
    hide Run, Inv, Honest, Executed, HasHash, OneMore, AllResolved, MinedAttempt;
    var mined := MineAttempt(g, trace, id, tx, true, logs);
    MinedNow(g, s, Last(mined), id, tx, logs);
    more := SettleMined(g, mined, id, tx);
  }

  lemma MinedNow(g: Config, s: Sys, t: Sys, id: ID, tx: Tx, logs: seq<Log>)
    requires s.chain.blocks != [] && HasHash(Subs(s.store, id), HashOf(tx))
    requires t == s.(chain := OneMore(g, s.chain, tx, true, logs))
    ensures MinedAttempt(t, id, tx) && tx in t.chain.receipts
  {
  }

  lemma ReadyToCarry(g: Config, s: Sys, id: ID)
    requires Inv(g, s) && id in s.store.intents && s.store.intents[id].nonce >= Spent(s.chain)
    ensures s.chain.settled < |s.chain.blocks| && s.store.intents[id].id == id && WellBuilt(g, s.store.intents[id])
    ensures s.store.intents[id].nonce == s.chain.blocks[s.chain.settled].nonce
  {
  }

  lemma Composed(g: Config, s: Sys, b: Sys, d: Sys, id: ID, tx: Tx)
    requires AtSettled(g, s, b, id, tx) && WellBuilt(g, s.store.intents[id]) && id !in s.store.facts
    requires InTime(s, s.store.intents[id]) && 0 <= s.store.intents[id].amount
    requires MinedThere(g, b, d, id, tx, [EventOf(g, s.store.intents[id])])
    ensures CarriedOut(g, s, d, id, tx)
  {
    var i := s.store.intents[id];
    EventExecutes(g, i, s.chain.blocks[s.chain.settled].time);
    hide Executed, WellBuilt, EventOf, Honest, InTime, HasHash, Recorded;
    AttemptRecorded(d.store, id, tx);
    SameRecorded(b.store, d.store);
  }

  lemma SameRecorded(r: Records, q: Records)
    requires r.subs == q.subs
    ensures forall x :: Recorded(r, x) <==> Recorded(q, x)
  {
  }

  lemma AttemptRecorded(r: Records, id: ID, tx: Tx)
    requires HasHash(Subs(r, id), HashOf(tx))
    ensures Recorded(r, tx)
  {
    assert id in r.subs;
  }

  /** A refill that is confirmed at some time in a run was in time at every earlier
      one at which its nonce was unspent. */
  lemma ConfirmedInTime(g: Config, trace: seq<Sys>, j: nat, id: ID)
    requires Run(g, trace) && j < |trace|
    requires id in trace[j].store.intents && trace[j].store.intents[id].kind.Refill?
    requires trace[j].store.intents[id].nonce >= Spent(trace[j].chain)
    requires id in Last(trace).store.facts && Last(trace).store.facts[id].executed
    ensures InTime(trace[j], trace[j].store.intents[id])
  {
    hide Inv, SysLater, InTime, Spent;
    RunKeepsInv(g, trace, j);
    RunKeepsInv(g, trace, |trace| - 1);
    RunOnlyGrows(g, trace, j, |trace| - 1);
    ExecutedInTime(g, trace[j], Last(trace), id);
  }

  lemma ExecutedInTime(g: Config, s: Sys, t: Sys, id: ID)
    requires Inv(g, s) && Inv(g, t) && SysLater(g, s, t)
    requires id in s.store.intents && s.store.intents[id].kind.Refill? && s.store.intents[id].nonce >= Spent(s.chain)
    requires id in t.store.facts && t.store.facts[id].executed
    ensures InTime(s, s.store.intents[id])
  {
    var f := t.store.facts[id];
    assert MaySettle(g, t, id, f) && WellBuilt(g, s.store.intents[id]);
    var tx := f.txHash.tx;
    AttemptIsIntent(g, t, id, tx);
    SpentIsSettled(g, t.chain, tx, s.chain.settled);
    assert t.chain.blocks[s.chain.settled] == s.chain.blocks[s.chain.settled];
    var r := t.chain.receipts[tx];
    assert Honest(g, tx, t.chain.blocks[r.block].time, r.success, r.logs);
  }

  /** Pending means the operation may still execute. While its nonce is unspent at the
      settled head, whoever else signs with the key and whatever is mined above that
      head, a payment can still be confirmed; a refill can exactly while the settled
      chain's time has not passed its deadline. */
  lemma PendingMayExecute(g: Config, trace: seq<Sys>, id: ID, policy: GasPolicy)
    requires Run(g, trace) && id in PendingIds(Last(trace).store)
    requires Last(trace).store.intents[id].nonce >= Spent(Last(trace).chain)
    ensures MayBeConfirmed(g, trace, id) <==> InTime(Last(trace), Last(trace).store.intents[id])
  {
    var s, i := Last(trace), Last(trace).store.intents[id];
    hide Run, Spent, InTime, CarriedOut;
    if InTime(s, i) {
      var more, tx := CarryOut(g, trace, id, policy);
      Carried(g, s, Last(more), id, tx);
      assert Run(g, more);
    } else {
      LateIsRefill(s, i);
      forall more | Run(g, more) && trace <= more && id in Last(more).store.facts
        ensures !Last(more).store.facts[id].executed
      {
        assert more[|trace| - 1] == s;
        if Last(more).store.facts[id].executed { ConfirmedInTime(g, more, |trace| - 1, id); }
      }
    }
  }

  lemma Carried(g: Config, s: Sys, t: Sys, id: ID, tx: Tx)
    requires id in s.store.intents && 0 <= s.store.intents[id].amount && CarriedOut(g, s, t, id, tx)
    ensures id in t.store.facts && t.store.facts[id].executed
  {
  }

  lemma LateIsRefill(s: Sys, i: Intent)
    requires !InTime(s, i)
    ensures i.kind.Refill?
  {
  }

  // ----- everything can be resolved -----

  /** With one signer every run can be continued until nothing is unresolved: a crash
      at any point leaves nothing that cannot be finished. */
  lemma AlwaysResolvable(g: Config, trace: seq<Sys>, policy: GasPolicy) returns (more: seq<Sys>)
    requires Run(g, trace) && SoleSigner(Last(trace))
    ensures Run(g, more) && trace <= more && AllResolved(Last(more).store)
    ensures Last(more).store.intents == Last(trace).store.intents
  {
    hide Init, StepAt, Inv, Honest, HasHash, Recorded, SoleSigner, OneMore;
    var s := Last(trace);
    if AllResolved(s.store) { return trace; }
    var id :| id in s.store.intents && id !in s.store.facts;
    RunKeepsInv(g, trace, |trace| - 1);
    NextNonceIsIts(g, s, id);
    if Head(s.chain).nonce <= s.store.intents[id].nonce {
      var attempted, tx := Attempted(g, trace, id, policy);
      RevertIsHonest(g, tx, Head(s.chain).time);
      var mined := MineAttempt(g, attempted, id, tx, false, []);
      MinedIsAttempt(g, Last(attempted), id, tx);
      more := SettleMined(g, mined, id, tx);
    } else {
      var tx := WinnerOf(g, s, id);
      more := SettleMined(g, trace, id, tx);
    }
  }

  lemma RevertIsHonest(g: Config, tx: Tx, time: nat)
    ensures Honest(g, tx, time, false, [])
  {
  }

  lemma MinedIsAttempt(g: Config, s: Sys, id: ID, tx: Tx)
    requires HasHash(Subs(s.store, id), HashOf(tx)) && s.chain.blocks != []
    ensures MinedAttempt(s.(chain := OneMore(g, s.chain, tx, false, [])), id, tx)
  {
  }

  /** With one signer a spent nonce was spent by an attempt at the intent that owns
      it. */
  lemma WinnerOf(g: Config, s: Sys, id: ID) returns (tx: Tx)
    requires Inv(g, s) && SoleSigner(s) && id in s.store.intents
    requires s.store.intents[id].nonce < Head(s.chain).nonce
    ensures MinedAttempt(s, id, tx)
  {
    var n := s.store.intents[id].nonce;
    Lifecycle.SoleSignerWon(g, s, n);
    var owner, won :| owner in s.store.intents && s.store.intents[owner].nonce == n && MinedAttempt(s, owner, won);
    tx := won;
  }
}
