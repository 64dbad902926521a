/** The audit a host runs (README.md:383-400), as one procedure: scan, read the balance
    at a settled block, ask after every operation, and compare. */
module Audit {
  import opened Types
  import opened Sums
  import opened Records
  import opened Chain
  import opened Protocol
  import opened Books
  import opened World
  import opened RailAccount

  datatype Statement = Statement(balance: int, booked: int, block: nat)

  /** The host has asked after the operation: it has a fact, priced if it is an executed
      refill, or it was still pending at the block. */
  ghost predicate Asked(g: Config, s: Sys, id: ID, block: nat) {
    && id in s.store.intents
    && (id in s.store.facts || s.store.intents[id].nonce >= NonceAt(s.chain, block))
    && (id in ExecutedUpTo(s.store, block) ==> Priced(g, s, id))
  }

  ghost function BookedFor(g: Config, s: Sys, done: set<ID>, block: nat): int {
    Sum(done * ExecutedUpTo(s.store, block), Booked(g, s))
  }

  /** What is pending at a block never executes at or below it. */
  lemma NotExecutedBy(g: Config, s: Sys, id: ID, block: nat)
    requires Inv(g, s) && block <= s.chain.settled
    requires id in s.store.intents && s.store.intents[id].nonce >= NonceAt(s.chain, block)
    ensures id !in ExecutedUpTo(s.store, block)
  {
    if id in ExecutedUpTo(s.store, block) {
      FactsAreSettled(g, s, id);
      var tx := s.store.facts[id].txHash.tx;
      assert MaySettle(g, s, id, s.store.facts[id]);
      AttemptIsIntent(g, s, id, tx);
      SpentIsSettled(g, s.chain, tx, block);
    }
  }

  /** What was learned stays, whatever the chain does meanwhile. */
  lemma AskedOnce(g: Config, s: Sys, t: Sys, id: ID, block: nat)
    requires Inv(g, s) && Inv(g, t) && SysLater(g, s, t) && block <= s.chain.settled && Asked(g, s, id, block)
    ensures Asked(g, t, id, block)
    ensures id in ExecutedUpTo(t.store, block) <==> id in ExecutedUpTo(s.store, block)
    ensures id in ExecutedUpTo(s.store, block) ==> Booked(g, t)(id) == Booked(g, s)(id)
  {
    hide Inv, SentValues;
    SettledStays(g, s, t, id, block);
    if s.store.intents[id].nonce >= NonceAt(s.chain, block) {
      NotExecutedBy(g, s, id, block);
      NotExecutedBy(g, t, id, block);
    } else if s.store.facts[id].executed {
      FactStands(g, s, t, id);
    }
    hide SysLater;
  }

  lemma SettledStays(g: Config, s: Sys, t: Sys, id: ID, block: nat)
    requires Inv(g, s) && SysLater(g, s, t) && block <= s.chain.settled && id in s.store.intents
    ensures block <= t.chain.settled && NonceAt(t.chain, block) == NonceAt(s.chain, block)
    ensures id in t.store.intents && t.store.intents[id] == s.store.intents[id]
    ensures id in s.store.facts ==> id in t.store.facts && t.store.facts[id] == s.store.facts[id]
  {
  }

  lemma AskedStays(g: Config, s: Sys, t: Sys, done: set<ID>, block: nat)
    requires Inv(g, s) && Inv(g, t) && SysLater(g, s, t) && block <= s.chain.settled
    requires forall id :: id in done ==> Asked(g, s, id, block)
    ensures forall id :: id in done ==> Asked(g, t, id, block)
    ensures BookedFor(g, t, done, block) == BookedFor(g, s, done, block)
  {
    hide Inv, SysLater, Asked, ExecutedUpTo;
    forall id | id in done
      ensures Asked(g, t, id, block) && (id in ExecutedUpTo(t.store, block) <==> id in ExecutedUpTo(s.store, block))
      ensures id in ExecutedUpTo(s.store, block) ==> Booked(g, t)(id) == Booked(g, s)(id)
    {
      AskedOnce(g, s, t, id, block);
    }
    assert done * ExecutedUpTo(t.store, block) == done * ExecutedUpTo(s.store, block);
    SumSame(done * ExecutedUpTo(s.store, block), Booked(g, s), Booked(g, t));
  }

  /** One more operation asked after adds what it books. */
  lemma OneMoreAsked(g: Config, s: Sys, done: set<ID>, id: ID, block: nat)
    requires id !in done
    ensures BookedFor(g, s, done + {id}, block)
            == BookedFor(g, s, done, block) + (if id in ExecutedUpTo(s.store, block) then Booked(g, s)(id) else 0)
  {
    hide ExecutedUpTo;
    var e := ExecutedUpTo(s.store, block);
    if id in e {
      assert (done + {id}) * e == done * e + {id};
      SumAdd(done * e, id, Booked(g, s));
    } else {
      assert (done + {id}) * e == done * e;
    }
  }

  /** The hypotheses about the key: one signer, and an earlier life, if any, that ended
      before the first observed block. */
  ghost predicate OneLife(g: Config, s: Sys) {
    && SoleSigner(s) && s.origin.Some?
    && (forall tx :: OwnMined(g, s.chain, tx) ==>
          (tx.nonce < s.origin.value <==> s.chain.receipts[tx].block < g.fromBlock))
  }

  /** The statement agrees with the chain, up to what the account paid itself. */
  ghost predicate Balances(g: Config, s: Sys, st: Statement) {
    && Auditable(g, s, st.block)
    && st.balance == BalanceBefore(g, s) + Sum(DepositsUpTo(s.store, st.block), DepositAmount(s.store))
                     - st.booked + Sum(ExecutedUpTo(s.store, st.block), SelfPaid(g, s))
  }

  lemma AskedAll(g: Config, trace: seq<Sys>, done: set<ID>, st: Statement)
    requires Run(g, trace) && OneLife(g, trace[|trace| - 1])
    requires var s := trace[|trace| - 1];
             && st.block <= s.chain.settled && st.block < |s.chain.blocks| && g.fromBlock <= st.block + 1
             && st.balance == s.chain.blocks[st.block].balance
             && s.store.cursor.Some? && st.block <= s.store.cursor.value
             && s.store.intents.Keys <= done && (forall id :: id in done ==> Asked(g, s, id, st.block))
             && st.booked == BookedFor(g, s, done, st.block)
    ensures Balances(g, trace[|trace| - 1], st)
  {
    var n := |trace| - 1;
    var s := trace[n];
    hide Run;
    SoleSignerAuditable(g, trace, n, st.block);
    BooksBalance(g, trace, n, st.block);
    assert done * ExecutedUpTo(s.store, st.block) == ExecutedUpTo(s.store, st.block);
  }

  /** Runs the audit over the host's own list of operations, which holds every recorded
      one once. No statement is made while the scan is behind the settled block read.
      A statement is true of the chain whenever one signer drives the key. */
  method Conduct(rail: Rail, ids: seq<ID>) returns (r: Result<Option<Statement>>)
    requires rail.w.Valid() && rail.w.sys.store.intents.Keys <= set id | id in ids
    requires forall j, k :: 0 <= j < k < |ids| ==> ids[j] != ids[k]
    modifies rail.w`sys, rail.w`trace, rail.w`failures
    ensures Failing(r, old(rail.w.failures), rail.w.failures)
    ensures rail.w.Valid() && old(rail.w.trace) <= rail.w.trace
    ensures rail.w.sys.store.intents == old(rail.w.sys).store.intents
    ensures r == Ok(None) ==>
              rail.w.sys.store.cursor.None? || rail.w.sys.store.cursor.value < rail.w.sys.chain.settled
    ensures r.Ok? && r.value.Some? ==> old(rail.w.sys).chain.settled <= r.value.value.block <= rail.w.sys.chain.settled
    ensures r.Err? && r.error != Unavailable ==>
              exists id :: id in ids && CannotAnswer(rail.w.g, rail.w.sys, id, r.error)
    ensures r.Ok? && r.value.Some? && OneLife(rail.w.g, rail.w.sys) && rail.w.g.fromBlock <= r.value.value.block + 1 ==>
              Balances(rail.w.g, rail.w.sys, r.value.value)
  {
    hide Run, Inv, Asked, BookedFor, OneLife, Balances, ExecutedUpTo, SysLater, ScannedTo, Later, CannotAnswer;
    var w := rail.w;
    ghost var start, first := w.sys, |w.trace| - 1;
    var found, scanned, spans := rail.ScanDeposits();
    SettledGrew(w, first, start);
    if scanned.Err? { return Err(scanned.error); }
    var held :- rail.SettledBalances();
    var (token, gas, block) := held;
    ghost var before, n := w.sys, |w.trace| - 1;
    var reached :- w.Cursor();
    AfterAsking(w, n, before, {}, block);
    if reached.None? || reached.value < block { return Ok(None); }
    before, n := w.sys, |w.trace| - 1;
    var booked :- AskAll(rail, ids, block);
    AfterAsking(w, n, before, {}, block);
    var st := Statement(token, booked, block);
    if OneLife(w.g, w.sys) && w.g.fromBlock <= block + 1 { AskedAll(w.g, w.trace, (set id | id in ids), st); }
    return Ok(Some(st));
  }

  /** Asks after every operation of the list. */
  method AskAll(rail: Rail, ids: seq<ID>, block: nat) returns (r: Result<int>)
    requires rail.w.Valid() && block <= rail.w.sys.chain.settled
    requires forall j, k :: 0 <= j < k < |ids| ==> ids[j] != ids[k]
    modifies rail.w`sys, rail.w`trace, rail.w`failures
    ensures Failing(r, old(rail.w.failures), rail.w.failures)
    ensures rail.w.Valid() && old(rail.w.trace) <= rail.w.trace && OnlyLooked(old(rail.w.sys), rail.w.sys)
    ensures r.Ok? ==> (forall id :: id in ids ==> Asked(rail.w.g, rail.w.sys, id, block))
                      && r.value == BookedFor(rail.w.g, rail.w.sys, (set id | id in ids), block)
    ensures r.Err? && r.error != Unavailable ==>
              exists id :: id in ids && CannotAnswer(rail.w.g, rail.w.sys, id, r.error)
  {
    hide Run, Inv, Asked, BookedFor, ExecutedUpTo, SysLater, OnlyLooked, CannotAnswer;
    var w := rail.w;
    ghost var start := w.sys;
    StaysLooking(start);
    var booked, k := 0, 0;
    ghost var done: set<ID> := {};
    NoneBooked(w.g, w.sys, block);
    while k < |ids|
      invariant w.Valid() && old(w.trace) <= w.trace && 0 <= k <= |ids| && w.failures == old(w.failures)
      invariant OnlyLooked(start, w.sys) && block <= w.sys.chain.settled
      invariant done == set id | id in ids[..k]
      invariant forall id :: id in done ==> Asked(w.g, w.sys, id, block)
      invariant booked == BookedFor(w.g, w.sys, done, block)
    {
      var id := ids[k];
      ghost var before, n := w.sys, |w.trace| - 1;
      var asked := AskAfter(rail, id, block);
      LookedTwice(start, before, w.sys);
      AfterAsking(w, n, before, done, block);
      var cost :- asked;
      OneMoreAsked(w.g, w.sys, done, id, block);
      booked := booked + cost;
      done := done + {id};
      k := k + 1;
      assert ids[..k] == ids[..k - 1] + [id];
    }
    assert ids[..k] == ids;
    return Ok(booked);
  }

  lemma NoneBooked(g: Config, s: Sys, block: nat)
    ensures BookedFor(g, s, {}, block) == 0
  {
    assert {} * ExecutedUpTo(s.store, block) == {};
  }

  lemma AfterAsking(w: World, n: nat, before: Sys, done: set<ID>, block: nat)
    requires w.Valid() && n < |w.trace| && w.trace[n] == before && block <= before.chain.settled
    requires forall id :: id in done ==> Asked(w.g, before, id, block)
    ensures forall id :: id in done ==> Asked(w.g, w.sys, id, block)
    ensures BookedFor(w.g, w.sys, done, block) == BookedFor(w.g, before, done, block)
    ensures block <= w.sys.chain.settled && block < |before.chain.blocks| && block < |w.sys.chain.blocks|
    ensures w.sys.chain.blocks[block] == before.chain.blocks[block]
  {
    hide Run, Asked, BookedFor;
    w.Since(n);
    w.Sound();
    RunKeepsInv(w.g, w.trace, n);
    AskedStays(w.g, before, w.sys, done, block);
  }

  /** Nothing says what the operation cost: it is not recorded, or it is an executed
      refill that paid the venue more or less often than once. */
  ghost predicate CannotAnswer(g: Config, s: Sys, id: ID, e: Error) {
    || (e == NoIntent && id !in s.store.intents)
    || (e == BadInput && id in s.store.intents && s.store.intents[id].kind.Refill?
        && id in s.store.facts && s.store.facts[id].executed && Books.RefillCost(g, s, s.store.facts[id]).None?)
  }

  /** What one operation books at a block: nothing unless it executed by then, else its
      amount, or for a refill what it cost. */
  method AskAfter(rail: Rail, id: ID, block: nat) returns (r: Result<int>)
    requires rail.w.Valid() && block <= rail.w.sys.chain.settled
    modifies rail.w`sys, rail.w`trace, rail.w`failures
    ensures Failing(r, old(rail.w.failures), rail.w.failures)
    ensures rail.w.Valid() && old(rail.w.trace) <= rail.w.trace && OnlyLooked(old(rail.w.sys), rail.w.sys)
    ensures r.Ok? ==> Asked(rail.w.g, rail.w.sys, id, block)
                      && r.value == (if id in ExecutedUpTo(rail.w.sys.store, block)
                                     then Booked(rail.w.g, rail.w.sys)(id) else 0)
    ensures r.Err? && r.error != Unavailable ==> CannotAnswer(rail.w.g, rail.w.sys, id, r.error)
  {
    hide Run, Inv, SysLater, Later;
    var w := rail.w;
    ghost var start, n := w.sys, |w.trace| - 1;
    var f :- rail.Outcome(id);
    PendingAt(w, n, start, block);
    if f.None? || !f.value.executed || f.value.block > block { return Ok(0); }
    var i :- w.Intent(id);
    if i.value.kind.Refill? {
      ghost var m := |w.trace| - 1;
      var asked := rail.RefillCost(id);
      FactKept(w, m, id);
      var cost :- asked;
      return Ok(cost);
    }
    return Ok(i.value.amount);
  }

  lemma SettledGrew(w: World, n: nat, before: Sys)
    requires w.Valid() && n < |w.trace| && w.trace[n] == before
    ensures before.chain.settled <= w.sys.chain.settled
  {
    hide Run;
    w.Since(n);
  }

  lemma FactKept(w: World, n: nat, id: ID)
    requires w.Valid() && n < |w.trace| && id in w.trace[n].store.facts
    ensures id in w.sys.store.facts && w.sys.store.facts[id] == w.trace[n].store.facts[id]
  {
    hide Run;
    w.Since(n);
  }

  /** A nonce unspent when the call began was unspent at any block settled by then. */
  lemma PendingAt(w: World, n: nat, start: Sys, block: nat)
    requires w.Valid() && n < |w.trace| && w.trace[n] == start && block <= start.chain.settled
    ensures NonceAt(w.sys.chain, block) <= Spent(start.chain)
  {
    hide Run;
    w.Since(n);
    RunKeepsInv(w.g, w.trace, n);
  }
}
