/** The one way the plain audit equation fails: the account pays itself. A payment to
    itself moves nothing, is booked by the host, and is skipped by the scan
    (go/rail/rail.go:169, go/rail/status.go:423). */
module SelfPayment {
  import opened Types
  import opened Sums
  import opened Records
  import opened Chain
  import opened Protocol
  import opened Books
  import opened Progress
  import Gas
  import Reserve
  import Router
  import Runway

  /** By how much the chain's balance at a block exceeds the host's ledger. */
  ghost function Gap(g: Config, s: Sys, block: nat): int
    requires block < |s.chain.blocks|
  {
    s.chain.blocks[block].balance
    - (BalanceBefore(g, s) + Sum(DepositsUpTo(s.store, block), DepositAmount(s.store))
       - Sum(ExecutedUpTo(s.store, block), Booked(g, s)))
  }

  lemma GapIs(g: Config, trace: seq<Sys>, n: nat, block: nat)
    requires Run(g, trace) && n < |trace| && Auditable(g, trace[n], block)
    ensures block < |trace[n].chain.blocks|
    ensures Gap(g, trace[n], block) == Sum(ExecutedUpTo(trace[n].store, block), SelfPaid(g, trace[n]))
  {
    BooksBalance(g, trace, n, block);
  }

  /** The new block holds the self-payment alone, so there is nothing to scan. */
  lemma NothingToScan(g: Config, s: Sys, t: Sys, id: ID, tx: Tx)
    requires Inv(g, s) && Later(g, s.chain, t.chain) && s.store.cursor == Some(s.chain.settled)
    requires id in s.store.intents && 0 <= s.store.intents[id].amount && CarriedOut(g, s, t, id, tx)
    requires s.store.intents[id].to == g.account
    ensures ScannedTo(g, t, t.chain.settled)
  {
    hide Inv, Later, EventOf, DepositAt, CarriedOut, ScannedTo;
    AtTheCursor(g, s);
    DepositsFrozen(g, s.chain, t.chain);
    SelfEventSkipped(g, s.store.intents[id]);
    forall k | DepositAt(g, t.chain, k).Some? ensures DepositAt(g, t.chain, k).value.block <= s.chain.settled {
      NotADeposit(g, s, t, id, tx, k);
    }
    StillScanned(g, s, t, id, tx);
  }

  lemma AtTheCursor(g: Config, s: Sys)
    requires Inv(g, s) && s.store.cursor == Some(s.chain.settled)
    ensures ScannedTo(g, s, s.chain.settled)
  {
  }

  /** The scan skips what the account sends itself. */
  lemma SelfEventSkipped(g: Config, i: Intent)
    requires 0 <= i.amount && i.to == g.account
    ensures !Incoming(g, EventOf(g, i))
  {
    Router.EventsRead(g.token, g.account, i.to, i.amount);
  }

  lemma StillScanned(g: Config, s: Sys, t: Sys, id: ID, tx: Tx)
    requires ScannedTo(g, s, s.chain.settled)
    requires id in s.store.intents && 0 <= s.store.intents[id].amount && CarriedOut(g, s, t, id, tx)
    requires forall k :: DepositAt(g, t.chain, k).Some? ==> DepositAt(g, t.chain, k).value.block <= s.chain.settled
    requires forall k :: DepositAt(g, t.chain, k).Some? && DepositAt(g, t.chain, k).value.block <= s.chain.settled
                         ==> DepositAt(g, s.chain, k) == DepositAt(g, t.chain, k)
    ensures ScannedTo(g, t, t.chain.settled)
  {
    hide DepositAt, EventOf, Recorded;
  }

  lemma NotADeposit(g: Config, s: Sys, t: Sys, id: ID, tx: Tx, k: LogKey)
    requires id in s.store.intents && 0 <= s.store.intents[id].amount && CarriedOut(g, s, t, id, tx)
    requires !Incoming(g, EventOf(g, s.store.intents[id])) && DepositAt(g, t.chain, k).Some?
    ensures DepositAt(g, t.chain, k).value.block <= s.chain.settled
  {
    hide Incoming, EventOf, Recorded;
    var x := k.txHash.tx;
    var l := t.chain.receipts[x].logs[k.index - t.chain.receipts[x].firstIndex];
    assert Incoming(g, l);
  }

  /** Carried out, and scanned up to the new settled head. */
  ghost predicate CarriedAndScanned(g: Config, s: Sys, t: Sys, id: ID, tx: Tx) {
    && id in s.store.intents && id !in s.store.facts && !s.store.intents[id].kind.Refill?
    && 0 <= s.store.intents[id].amount && s.store.cursor == Some(s.chain.settled)
    && CarriedOut(g, s, t.(store := t.store.(cursor := s.store.cursor)), id, tx)
    && t.store.cursor == Some(t.chain.settled) && AllResolved(t.store) && SysLater(g, s, t)
  }

  /** And the audit applies to it. */
  lemma StillAuditable(g: Config, s: Sys, t: Sys, id: ID, tx: Tx)
    requires Inv(g, s) && CarriedAndScanned(g, s, t, id, tx) && Auditable(g, s, s.chain.settled)
    ensures Auditable(g, t, t.chain.settled)
  {
    RecordedFromThere(g, s, t, id, tx);
    forall x | x in ExecutedUpTo(t.store, t.chain.settled) ensures Priced(g, t, x) {
      if x != id { StillPriced(g, s, t, x, id, tx); }
    }
    hide ChainInv, BalanceInv, RecordsInv, AttemptsInv, WriteAhead, OneInFlight, FactsInv, FloorInv, ScannedTo, Later,
        Priced, Recorded;
  }

  lemma RecordedFromThere(g: Config, s: Sys, t: Sys, id: ID, tx: Tx)
    requires Inv(g, s) && CarriedAndScanned(g, s, t, id, tx) && Auditable(g, s, s.chain.settled)
    ensures forall x :: OwnMined(g, t.chain, x) && t.chain.receipts[x].block <= t.chain.settled ==>
              (Recorded(t.store, x) <==> g.fromBlock <= t.chain.receipts[x].block)
  {
    hide BalanceInv, ChainInv, RecordsInv, AttemptsInv, WriteAhead, OneInFlight, FactsInv, FloorInv, Recorded,
        ScannedTo;
    assert g.fromBlock <= s.chain.settled;
    SameRecorded(t.store.(cursor := s.store.cursor), t.store);
    RecordedSurvives(s.store, t.store);
    forall x | OwnMined(g, t.chain, x) && t.chain.receipts[x].block <= t.chain.settled
      ensures Recorded(t.store, x) <==> g.fromBlock <= t.chain.receipts[x].block
    {
      if x != tx { assert OwnMined(g, s.chain, x) && s.chain.receipts[x] == t.chain.receipts[x]; }
    }
  }

  lemma StillPriced(g: Config, s: Sys, t: Sys, x: ID, id: ID, tx: Tx)
    requires Inv(g, s) && CarriedAndScanned(g, s, t, id, tx) && Auditable(g, s, s.chain.settled)
    requires x in ExecutedUpTo(t.store, t.chain.settled) && x != id
    ensures Priced(g, t, x)
  {
    hide Inv, SysLater, SentValues, Recorded;
    assert x in s.store.facts && s.store.facts[x] == t.store.facts[x];
    FactStands(g, s, t, x);
    assert x in ExecutedUpTo(s.store, s.chain.settled) && Priced(g, s, x);
  }

  lemma OneMorePaid(g: Config, s: Sys, t: Sys, id: ID, tx: Tx)
    requires Inv(g, s) && CarriedAndScanned(g, s, t, id, tx) && s.store.intents[id].to == g.account
    ensures Sum(ExecutedUpTo(t.store, t.chain.settled), SelfPaid(g, t))
            == Sum(ExecutedUpTo(s.store, s.chain.settled), SelfPaid(g, s)) + s.store.intents[id].amount
  {
    hide Inv, SysLater, SentValues, OutSum, EventOf, Recorded;
    var before := ExecutedUpTo(s.store, s.chain.settled);
    forall x | x in s.store.facts && s.store.facts[x].executed
      ensures x in before && SelfPaid(g, s)(x) == SelfPaid(g, t)(x)
    {
      SamePaid(g, s, t, x);
    }
    OneMoreExecuted(g, s, t, id, tx);
    SumAdd(before, id, SelfPaid(g, t));
    SumSame(before, SelfPaid(g, s), SelfPaid(g, t));
  }

  lemma OneMoreExecuted(g: Config, s: Sys, t: Sys, id: ID, tx: Tx)
    requires CarriedAndScanned(g, s, t, id, tx)
    requires forall x :: x in s.store.facts && s.store.facts[x].executed ==> s.store.facts[x].block <= s.chain.settled
    ensures ExecutedUpTo(t.store, t.chain.settled) == ExecutedUpTo(s.store, s.chain.settled) + {id}
    ensures id !in ExecutedUpTo(s.store, s.chain.settled)
  {
    hide SysLater, EventOf, Recorded;
  }

  lemma SamePaid(g: Config, s: Sys, t: Sys, x: ID)
    requires Inv(g, s) && SysLater(g, s, t) && x in s.store.facts && s.store.facts[x].executed
    ensures x in ExecutedUpTo(s.store, s.chain.settled) && SelfPaid(g, s)(x) == SelfPaid(g, t)(x)
  {
    hide Inv, SysLater, SentValues, OutSum;
    FactStands(g, s, t, x);
  }

  /** From any audited state, carrying out a payment to the account itself leads to an
      auditable block whose gap is wider by exactly the amount. */
  lemma SelfPaymentWidensGap(g: Config, trace: seq<Sys>, id: ID, policy: GasPolicy) returns (more: seq<Sys>)
    requires Run(g, trace) && id in PendingIds(Last(trace).store)
    requires var s, i := Last(trace), Last(trace).store.intents[id];
             && !i.kind.Refill? && i.to == g.account && i.nonce >= Spent(s.chain)
             && s.store.cursor == Some(s.chain.settled) && Auditable(g, s, s.chain.settled)
    ensures Run(g, more) && trace <= more && Auditable(g, Last(more), Last(more).chain.settled)
    ensures var s, t := Last(trace), Last(more);
            && s.chain.settled < |s.chain.blocks| && t.chain.settled < |t.chain.blocks|
            && Gap(g, t, t.chain.settled) == Gap(g, s, s.chain.settled) + s.store.intents[id].amount
            && t.store.intents == s.store.intents
  {
    hide Inv, Auditable, Gap, CarriedAndScanned, SelfPaid, ExecutedUpTo, StepAt, Init;
    var s, n := Last(trace), |trace| - 1;
    RunKeepsInv(g, trace, n);
    var carried, tx := CarryAndScan(g, trace, id, policy);
    more := carried;
    SameIntents(g, s, Last(more), id, tx);
    StillAuditable(g, s, Last(more), id, tx);
    OneMorePaid(g, s, Last(more), id, tx);
    GapIs(g, trace, n, s.chain.settled);
    GapIs(g, more, |more| - 1, Last(more).chain.settled);
  }

  lemma SameIntents(g: Config, s: Sys, t: Sys, id: ID, tx: Tx)
    requires CarriedAndScanned(g, s, t, id, tx)
    ensures t.store.intents == s.store.intents
  {
  }

  lemma CarryAndScan(g: Config, trace: seq<Sys>, id: ID, policy: GasPolicy) returns (more: seq<Sys>, tx: Tx)
    requires Run(g, trace) && id in PendingIds(Last(trace).store)
    requires var s, i := Last(trace), Last(trace).store.intents[id];
             && !i.kind.Refill? && i.to == g.account && i.nonce >= Spent(s.chain)
             && s.store.cursor == Some(s.chain.settled)
    ensures Run(g, more) && trace <= more && CarriedAndScanned(g, Last(trace), Last(more), id, tx)
  {
    var s, n := Last(trace), |trace| - 1;
    RunKeepsInv(g, trace, n);
    hide Inv, Run, CarriedOut, SysLater, AllResolved, ScannedTo, Enabled, Apply, Later;
    var carried, sent := CarryOut(g, trace, id, policy);
    tx := sent;
    var t := Last(carried);
    assert carried[n] == s;
    LaterInRun(g, carried, n);
    NothingToScan(g, s, t, id, tx);
    CursorMayMove(g, s, t, id, tx);
    more := Extend(g, carried, MoveCursor(t.chain.settled));
    assert more[n] == s;
    LaterInRun(g, more, n);
    CursorMoved(g, s, t, Last(more), id, tx);
  }

  lemma LaterInRun(g: Config, trace: seq<Sys>, n: nat)
    requires Run(g, trace) && n < |trace|
    ensures SysLater(g, trace[n], Last(trace)) && Later(g, trace[n].chain, Last(trace).chain) && Inv(g, Last(trace))
  {
    hide Inv, Later;
    RunOnlyGrows(g, trace, n, |trace| - 1);
    RunKeepsInv(g, trace, |trace| - 1);
  }

  lemma CursorMayMove(g: Config, s: Sys, t: Sys, id: ID, tx: Tx)
    requires Inv(g, s) && s.store.cursor == Some(s.chain.settled) && ScannedTo(g, t, t.chain.settled)
    requires id in s.store.intents && 0 <= s.store.intents[id].amount && CarriedOut(g, s, t, id, tx)
    ensures Enabled(g, t, MoveCursor(t.chain.settled))
  {
  }

  lemma CursorMoved(g: Config, s: Sys, t: Sys, u: Sys, id: ID, tx: Tx)
    requires id in s.store.intents && 0 <= s.store.intents[id].amount && CarriedOut(g, s, t, id, tx)
    requires s.store.cursor == Some(s.chain.settled) && u == Apply(g, t, MoveCursor(t.chain.settled))
    requires AllResolved(t.store)
    ensures u.store.cursor == Some(u.chain.settled) && u.chain.settled == t.chain.settled && AllResolved(u.store)
    ensures CarriedOut(g, s, u.(store := u.store.(cursor := s.store.cursor)), id, tx)
  {
    assert u.(store := u.store.(cursor := s.store.cursor)) == t;
  }

  // ----- it happens -----

  /** An account with one unit of money and this reserve, nothing sent, and everything
      observed. */
  function Fresh(g: Config, native: nat): Sys {
    var blocks := seq(g.fromBlock + 1, _ => BlockState(0, 0, 1, native, 0));
    Sys(EMPTY, Chain({}, {}, map[], map[], blocks, g.fromBlock), 1, None)
  }

  function ToItself(g: Config): Intent {
    Intent(Named(0), Transfer, g.account, 1, 0, 0, TransferCall(g.account, 1), 0)
  }

  /** Whatever the account, token, first block and policy, there is a run that follows the
      policy to an auditable block at which the plain equation is off by one. */
  lemma BooksCanDisagree(g: Config, policy: GasPolicy) returns (more: seq<Sys>)
    requires g.account != ZERO_ADDRESS && policy.Valid()
    ensures Run(g, more) && Runway.Followed(policy, more) && Auditable(g, Last(more), Last(more).chain.settled)
    ensures Last(more).chain.settled < |Last(more).chain.blocks| && Gap(g, Last(more), Last(more).chain.settled) == 1
  {
    var trace := BeforeSelfPayment(g, policy);
    GapIs(g, trace, |trace| - 1, g.fromBlock);
    assert ExecutedUpTo(Last(trace).store, g.fromBlock) == {};
    hide Run, Auditable, Gap, Runway.Followed;
    more := SelfPaymentWidensGap(g, trace, Named(0), policy);
    Runway.FollowedOn(g, policy, trace, more);
  }

  /** The payment is recorded on a balance of exactly the minimum. */
  lemma BeforeSelfPayment(g: Config, policy: GasPolicy) returns (trace: seq<Sys>)
    requires g.account != ZERO_ADDRESS && policy.Valid()
    ensures Run(g, trace) && Runway.Followed(policy, trace) && Auditable(g, Last(trace), g.fromBlock)
    ensures Last(trace) == Fresh(g, policy.min).(origin := Some(0),
                                                 store := EMPTY.(floor := Some(0), cursor := Some(g.fromBlock),
                                                                 intents := map[Named(0) := ToItself(g)]))
  {
    FreshIsInitial(g, policy.min);
    var s := Fresh(g, policy.min);
    var a := s.(origin := Some(0), store := EMPTY.(floor := Some(0)));
    var b := a.(store := a.store.(intents := map[Named(0) := ToItself(g)]));
    var begun := [s];
    assert Run(g, begun) && Runway.Followed(policy, begun);
    hide Run, Inv, Runway.Followed, Runway.DecidedOn;
    assert Apply(g, s, MoveFloor(0)) == a;
    var bound := Extend(g, begun, MoveFloor(0));
    Runway.FollowedOn(g, policy, begun, bound);
    AtTheMinimum(g, policy, a);
    assert !NonceTaken(a.store, 0) && Apply(g, a, RecordIntent(ToItself(g))) == b;
    var recorded := Extend(g, bound, RecordIntent(ToItself(g)));
    Runway.FollowedWith(g, policy, bound, recorded, Named(0), |bound| - 1);
    assert Apply(g, b, MoveCursor(g.fromBlock)) == b.(store := b.store.(cursor := Some(g.fromBlock)));
    trace := Extend(g, recorded, MoveCursor(g.fromBlock));
    Runway.FollowedOn(g, policy, recorded, trace);
  }

  lemma AtTheMinimum(g: Config, policy: GasPolicy, s: Sys)
    requires policy.Valid() && s == Fresh(g, policy.min).(origin := Some(0), store := EMPTY.(floor := Some(0)))
    ensures Ready(s) && s.chain.blocks != [] && Runway.DecidedOn(policy, Head(s.chain).native, ToItself(g))
  {
    assert Runway.Chosen(policy, Reserve.Account(policy.min, 1), 1, None, 1, ToItself(g));
  }

  lemma FreshIsInitial(g: Config, native: nat)
    ensures Init(g, Fresh(g, native))
  {
    var c := Fresh(g, native).chain;
    forall b | 0 <= b < |c.blocks| ensures c.blocks[b].balance == 1 + Sum(MinedUpTo(c, b), NetOf(g, c)) {
      assert MinedUpTo(c, b) == {};
    }
  }
}
