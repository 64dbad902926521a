/** Refills and the venue: what a refill records is what a venue runs, whenever it runs
    and wherever the rail buys its gas by then. */
module Refills {
  import opened Types
  import Records
  import opened Chain
  import opened Protocol
  import opened Router

  /** In every reachable state, every recorded attempt at a refill goes to the venue
      recorded with it, whatever is configured now. If it runs there it meets the trust
      base, delivers the size recorded with anything still owed, costs one transfer of
      the venue's price within the recorded bound, and its events say what the ledger
      did. */
  lemma EveryAttemptDelivers(g: Config, trace: seq<Sys>, k: nat, id: ID, tx: Tx, pool: Pool, v: Venue, now: nat,
                             signed: bool)
    requires Run(g, trace) && k < |trace| && HasHash(Records.Subs(trace[k].store, id), HashOf(tx))
    requires id in trace[k].store.intents && trace[k].store.intents[id].kind.Refill?
    requires trace[k].store.intents[id].to != g.account && pool.tokenIn == g.token && v.logs == []
    ensures var i := trace[k].store.intents[id];
            && tx.to == i.to && tx.sender == g.account && WellSigned(tx.data)
            && 0 < i.delta
            && var out := Router.DoAll(i.to, pool, v, g.account, now, RefillBatch(i.to, pool, tx.data, signed));
            && (out.Some? <==> Fillable(i.to, v, g.account, now, tx.data, signed))
            && (out.Some? ==>
                  QuoteAt(v.price, i.delta).Some?
                  && var u, cost := out.value.0, QuoteAt(v.price, i.delta).value;
                  && Honest(g, tx, now, true, u.logs) && SentValues(u.logs, g.token, g.account) == [cost]
                  && cost <= i.amount && At(u.balance, g.account) == At(v.balance, g.account) - cost
                  && Net(g, u.logs) + cost == 0
                  && At(u.native, g.account) == At(v.native, g.account) + At(v.owed, g.account) + i.delta)
  {
    RunKeepsInv(g, trace, k);
    var i := trace[k].store.intents[id];
    AttemptIsIntent(g, trace[k], id, tx);
    assert WellBuilt(g, i);
    hide Run, Inv, Router.DoAll;
    RefillExactly(i.to, pool, v, g.account, now, tx.data, signed);
    var out := Router.DoAll(i.to, pool, v, g.account, now, RefillBatch(i.to, pool, tx.data, signed));
    if out.Some? {
      RefillIsHonest(g, i.to, pool, v, tx, now, signed);
      OneSent(g, i.to, i.amount, QuoteAt(v.price, i.delta).value);
    }
  }

  lemma OneSent(g: Config, self: Address, value: nat, cost: nat)
    requires cost < UINT256_LIMIT
    ensures SentValues([ApprovalEvent(g.token, g.account, self, value), TransferEvent(g.token, g.account, self, cost)],
                       g.token, g.account) == [cost]
  {
    hide AddressOf, Word, Bytes, TransferEvent, ApprovalEvent;
    EventsRead(g.token, g.account, self, value);
    EventsRead(g.token, g.account, self, cost);
    var a, t := ApprovalEvent(g.token, g.account, self, value), TransferEvent(g.token, g.account, self, cost);
    assert [a, t][..1] == [a] && [a][..0] == [];
    assert SentValues([a], g.token, g.account) == [];
  }
}
