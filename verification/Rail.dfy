/** The operations of an account (go/rail/rail.go, go/rail/status.go). Each method is
    a sequence of store and chain operations; whatever interrupts it, what it leaves
    is a state of a run of the protocol. A restart is a new Rail over the same
    World, with its settings as they are by then. */
module RailAccount {
  import opened Types
  import opened Fees
  import Gas
  import opened Records
  import opened Chain
  import opened Protocol
  import Lifecycle
  import Books
  import Reserve
  import Runway
  import opened World
  const REFILL_WINDOW: nat := 3600
  const MAX_SCAN_SPAN: nat := 10_000

  datatype Status = Unknown | Pending | Confirmed | Failed

  datatype Paid = Paid(txHash: Hash, refillId: Option<ID>, refillTx: Hash)

  /** Nothing has happened but looking: facts and the nonce floor may have advanced,
      and the chain may have moved. No intent, no attempt and no broadcast is new. */
  ghost predicate OnlyLooked(s: Sys, t: Sys) {
    && t.store.intents == s.store.intents && t.store.subs == s.store.subs
    && t.store.deposits == s.store.deposits && t.store.cursor == s.store.cursor
    && t.chain.ours == s.chain.ours && t.opening == s.opening
  }

  lemma LookedTwice(s: Sys, t: Sys, u: Sys)
    requires OnlyLooked(s, t)
    ensures OnlyLooked(t, u) ==> OnlyLooked(s, u)
    ensures t.store.intents == s.store.intents && t.store.subs == s.store.subs && t.chain.ours == s.chain.ours
  {
  }

  lemma QuietLooks(g: Config, s: Sys, t: Sys)
    requires Quiet(g, s, t)
    ensures OnlyLooked(s, t)
  {
  }

  lemma StaysLooking(s: Sys)
    ensures OnlyLooked(s, s)
  {
  }

  /** Only deposits and the scan cursor have moved. */
  ghost predicate OnlyScanned(s: Sys, t: Sys) {
    && t.store.intents == s.store.intents && t.store.subs == s.store.subs
    && t.store.facts == s.store.facts && t.store.floor == s.store.floor
    && t.chain.ours == s.chain.ours && t.opening == s.opening
    && (forall k :: k in s.store.deposits ==> k in t.store.deposits && t.store.deposits[k] == s.store.deposits[k])
  }

  function ScanStart(g: Config, cursor: Option<nat>): nat {
    if cursor.Some? then cursor.value + 1 else g.fromBlock
  }

  /** Every deposit below a block is recorded. */
  ghost predicate Covered(g: Config, s: Sys, block: nat) {
    forall k :: DepositAt(g, s.chain, k).Some? && DepositAt(g, s.chain, k).value.block < block ==> k in s.store.deposits
  }

  /** Spans follow one another without gap or overlap, none is wider than a node will
      answer, and only the last may be narrower. */
  predicate Consecutive(start: nat, spans: seq<(nat, nat)>) {
    forall n :: 0 <= n < |spans| ==>
      spans[n].0 <= spans[n].1 < spans[n].0 + 10_000
      && (n < |spans| - 1 ==> spans[n].1 == spans[n].0 + 9_999)
      && spans[n].0 == (if n == 0 then start else spans[n - 1].1 + 1)
  }

  function Reached(start: nat, spans: seq<(nat, nat)>): nat {
    if spans == [] then start else spans[|spans| - 1].1 + 1
  }

  lemma OneMoreSpan(start: nat, spans: seq<(nat, nat)>, last: nat)
    requires Consecutive(start, spans) && Reached(start, spans) <= last < Reached(start, spans) + MAX_SCAN_SPAN
    requires spans != [] ==> var end := spans[|spans| - 1]; end.1 == end.0 + 9_999
    ensures Consecutive(start, spans + [(Reached(start, spans), last)])
    ensures Reached(start, spans + [(Reached(start, spans), last)]) == last + 1
  {
  }

  /** Covered up to the next block is what the cursor may promise. */
  lemma CoveredIsScanned(g: Config, s: Sys, block: nat)
    ensures Covered(g, s, block + 1) <==> ScannedTo(g, s, block)
    ensures forall b: nat :: b <= block && Covered(g, s, block + 1) ==> ScannedTo(g, s, b)
  {
  }

  lemma CoveredStays(g: Config, s: Sys, t: Sys, block: nat)
    requires Quiet(g, s, t) && Covered(g, s, block) && block <= s.chain.settled + 1
    ensures Covered(g, t, block)
  {
    hide DepositAt, Later;
    DepositsFrozen(g, s.chain, t.chain);
  }

  /** Recording what the node answered for a span covers the span. */
  lemma CoverSpan(g: Config, s: Sys, from: nat, last: nat, logs: seq<FoundLog>)
    requires Covered(g, s, from) && AnswersFilter(g, s.chain, from, last, logs)
    requires forall n :: 0 <= n < |logs| && Incoming(g, logs[n].log) ==> logs[n].key in s.store.deposits
    ensures Covered(g, s, last + 1)
  {
    forall k | DepositAt(g, s.chain, k).Some? && from <= DepositAt(g, s.chain, k).value.block <= last
      ensures k in s.store.deposits
    {
      var tx := k.txHash.tx;
      var i := k.index - s.chain.receipts[tx].firstIndex;
      assert Matching(g, s.chain, from, last, tx, i);
      var f := FoundAt(s.chain, tx, i);
      assert f in logs && f.key == k && Incoming(g, f.log);
    }
  }

  /** Exactly the deposits in a range of blocks. */
  ghost predicate ListsDeposits(g: Config, c: Chain, found: seq<LogKey>, from: nat, until: nat) {
    forall k :: k in found <==>
      DepositAt(g, c, k).Some? && from <= DepositAt(g, c, k).value.block < until
  }

  lemma SpanListed(g: Config, c: Chain, from: nat, last: nat, logs: seq<FoundLog>, found: seq<LogKey>)
    requires AnswersFilter(g, c, from, last, logs) && g.fromBlock <= from
    requires forall n :: 0 <= n < |logs| && Incoming(g, logs[n].log) ==> logs[n].key in found
    requires forall k :: k in found ==> KeyAmong(g, logs, k)
    ensures ListsDeposits(g, c, found, from, last + 1)
  {
    forall k | k in found ensures DepositAt(g, c, k).Some? && from <= DepositAt(g, c, k).value.block <= last {
      var n :| 0 <= n < |logs| && logs[n].key == k && Incoming(g, logs[n].log);
      FoundIsDeposit(g, c, from, last, logs[n]);
    }
    forall k | DepositAt(g, c, k).Some? && from <= DepositAt(g, c, k).value.block <= last ensures k in found {
      var tx := k.txHash.tx;
      var i := k.index - c.receipts[tx].firstIndex;
      assert Matching(g, c, from, last, tx, i);
      var f := FoundAt(c, tx, i);
      assert f in logs && f.key == k && Incoming(g, f.log);
    }
  }

  lemma KeysStay(g: Config, logs: seq<FoundLog>, n: nat)
    requires n < |logs|
    ensures forall k :: KeyAmong(g, logs[..n], k) ==> KeyAmong(g, logs[..n + 1], k)
    ensures Incoming(g, logs[n].log) ==> KeyAmong(g, logs[..n + 1], logs[n].key)
  {
    forall k | KeyAmong(g, logs[..n], k) ensures KeyAmong(g, logs[..n + 1], k) {
      var m :| 0 <= m < n && logs[..n][m].key == k && Incoming(g, logs[..n][m].log);
      assert logs[..n + 1][m] == logs[m];
    }
    if Incoming(g, logs[n].log) { assert logs[..n + 1][n] == logs[n]; }
  }

  lemma KeyIsNew(g: Config, logs: seq<FoundLog>, n: nat)
    requires n < |logs| && EachOnce(logs)
    ensures !KeyAmong(g, logs[..n], logs[n].key)
  {
  }

  predicate KeyAmong(g: Config, logs: seq<FoundLog>, k: LogKey) {
    exists n :: 0 <= n < |logs| && logs[n].key == k && Incoming(g, logs[n].log)
  }

  /** No deposit is listed twice. */
  predicate NoneTwice(found: seq<LogKey>) {
    forall j, k :: 0 <= j < k < |found| ==> found[j] != found[k]
  }

  lemma NothingListed(g: Config, c: Chain, from: nat)
    ensures ListsDeposits(g, c, [], from, from) && NoneTwice([])
  {
  }

  lemma ListsJoin(g: Config, c: Chain, d: Chain, found: seq<LogKey>, more: seq<LogKey>, start: nat, from: nat,
      until: nat)
    requires Later(g, c, d) && start <= from <= c.settled + 1 && from <= until
    requires ListsDeposits(g, c, found, start, from) && ListsDeposits(g, d, more, from, until)
    ensures ListsDeposits(g, d, found + more, start, until)
    ensures NoneTwice(found) && NoneTwice(more) ==> NoneTwice(found + more)
  {
    hide DepositAt, Later;
    DepositsFrozen(g, c, d);
    forall k | k in found ensures k !in more {
      assert DepositAt(g, c, k).Some? && DepositAt(g, c, k).value.block < from;
    }
    if NoneTwice(found) && NoneTwice(more) { NoneTwiceJoin(found, more); }
  }

  lemma NoneTwiceJoin(found: seq<LogKey>, more: seq<LogKey>)
    requires NoneTwice(found) && NoneTwice(more) && forall k :: k in found ==> k !in more
    ensures NoneTwice(found + more)
  {
    forall j, k | 0 <= j < k < |found + more| ensures (found + more)[j] != (found + more)[k] {
      if j < |found| <= k { assert found[j] in found && more[k - |found|] in more; }
    }
  }

  lemma FoundIsDeposit(g: Config, c: Chain, from: nat, last: nat, f: FoundLog)
    requires IsFound(g, c, from, last, f) && Incoming(g, f.log) && g.fromBlock <= from
    ensures DepositAt(g, c, f.key) == Some(Deposit(AddressOf(f.log.topics[1]), Word(f.log), f.block))
    ensures from <= f.block <= last
  {
  }

  /** Attempts at one intent may have been added, and broadcast. */
  ghost predicate OnlyAttempted(g: Config, s: Sys, t: Sys, id: ID) {
    && t.store.intents == s.store.intents && t.store.facts == s.store.facts
    && t.store.deposits == s.store.deposits && t.store.cursor == s.store.cursor && t.store.floor == s.store.floor
    && Subs(s.store, id) <= Subs(t.store, id) && |Subs(t.store, id)| <= |Subs(s.store, id)| + 1
    && (forall other :: other != id ==> Subs(t.store, other) == Subs(s.store, other))
    && (forall tx :: tx in t.chain.ours && tx !in s.chain.ours ==> HasHash(Subs(t.store, id), HashOf(tx)))
    && s.chain.ours <= t.chain.ours && t.opening == s.opening
  }

  /** One new operation may have been recorded, attempted and broadcast. */
  ghost predicate OnlyBegan(s: Sys, t: Sys, id: ID) {
    && id !in s.store.intents && id in t.store.intents
    && t.store.intents == s.store.intents[id := t.store.intents[id]]
    && (forall other :: other != id ==> Subs(t.store, other) == Subs(s.store, other))
    && |Subs(t.store, id)| <= 1
    && t.store.deposits == s.store.deposits && t.store.cursor == s.store.cursor && t.opening == s.opening
    && s.chain.ours <= t.chain.ours
    && (forall tx :: tx in t.chain.ours && tx !in s.chain.ours ==> HasHash(Subs(t.store, id), HashOf(tx)))
  }

  /** Whatever happened happened to one operation: it may be new, it may have one more
      attempt, and only its attempts may have been broadcast. */
  ghost predicate OneOperation(s: Sys, t: Sys, id: ID) {
    && (forall other :: other in s.store.intents ==>
          other in t.store.intents && t.store.intents[other] == s.store.intents[other])
    && (forall other :: other in t.store.intents && other !in s.store.intents ==> other == id)
    && (forall other :: other != id ==> Subs(t.store, other) == Subs(s.store, other))
    && |Subs(t.store, id)| <= |Subs(s.store, id)| + 1
    && t.store.deposits == s.store.deposits && t.store.cursor == s.store.cursor && t.opening == s.opening
    && s.chain.ours <= t.chain.ours
    && (forall tx :: tx in t.chain.ours && tx !in s.chain.ours ==> HasHash(Subs(t.store, id), HashOf(tx)))
  }

  lemma PreparedThenSent(g: Config, s: Sys, t: Sys, u: Sys, id: ID)
    requires OnlyLooked(s, t) || (OnlyBegan(s, t, id) && Fresh(t, id) && t.chain.ours == s.chain.ours)
    requires OnlyAttempted(g, t, u, id) || u == t
    ensures OneOperation(s, u, id)
  {
  }

  lemma LookedThenSent(g: Config, s: Sys, t: Sys, u: Sys, id: ID)
    requires OnlyLooked(s, t) && OnlyAttempted(g, t, u, id)
    requires Subs(t.store, id) != [] ==> u.store == t.store
    ensures u.store.intents == s.store.intents
    ensures Subs(s.store, id) != [] ==> u.store.subs == s.store.subs
  {
  }

  lemma LookedThenRefilled(s: Sys, t: Sys, u: Sys, id: ID)
    requires OnlyLooked(s, t) && (OnlyLooked(t, u) || OnlyBegan(t, u, id))
    ensures OneOperation(s, u, id)
  {
  }

  /** Whatever is unresolved has a nonce that was not spent. */
  ghost predicate Unsettled(r: Records, spent: nat) {
    forall id :: id in PendingIds(r) ==> r.intents[id].nonce >= spent
  }

  lemma PendingUnsettled(r: Records, q: Records, pending: seq<Intent>, spent: nat)
    requires ListsPending(r, pending) && q.intents == r.intents
    requires forall id :: id in r.facts ==> id in q.facts
    requires forall j :: 0 <= j < |pending| ==> pending[j].id in q.facts || pending[j].nonce >= spent
    ensures Unsettled(q, spent)
  {
    forall id | id in PendingIds(q) ensures q.intents[id].nonce >= spent {
      assert id in PendingIds(r) && HasId(pending, id);
    }
  }

  lemma PendingListed(r: Records, pending: seq<Intent>)
    requires ListsPending(r, pending)
    ensures pending == [] <==> AllResolved(r)
    ensures pending != [] ==> PendingIds(r) != {}
  {
    if pending == [] {
      forall id | id in r.intents ensures id in r.facts {
        assert id in PendingIds(r) ==> HasId(pending, id);
      }
    } else {
      assert pending[0].id in PendingIds(r);
    }
  }

  /** The token balance and the native balance were each read at some moment of the
      call, which took the run from `before` to `after`. */
  ghost predicate Saw(before: Moment, after: Moment, token: int, gas: int) {
    exists j, k :: |before.trace| <= j + 1 <= |after.trace| && |before.trace| <= k + 1 <= |after.trace|
                   && 0 <= j && 0 <= k
                   && after.trace[j].chain.blocks != [] && Head(after.trace[j].chain).balance == token
                   && after.trace[k].chain.blocks != [] && Head(after.trace[k].chain).native == gas
  }

  lemma BothSeen(before: Moment, after: Moment, at: nat, token: int, gas: int)
    requires 0 < |before.trace| <= at + 1 <= |after.trace|
    requires after.trace[at].chain.blocks != [] && Head(after.trace[at].chain).balance == token
    requires var last := after.trace[|after.trace| - 1].chain; last.blocks != [] && Head(last).native == gas
    ensures Saw(before, after, token, gas)
  {
  }

  lemma SawStays(before: Moment, mid: Moment, seen: Moment, after: Moment, token: int, gas: int)
    requires Saw(mid, seen, token, gas) && Extends(seen, after) && Extends(before, mid)
    ensures Saw(before, after, token, gas)
  {
    var j, k :| |mid.trace| <= j + 1 <= |seen.trace| && |mid.trace| <= k + 1 <= |seen.trace| && 0 <= j && 0 <= k
                && seen.trace[j].chain.blocks != [] && Head(seen.trace[j].chain).balance == token
                && seen.trace[k].chain.blocks != [] && Head(seen.trace[k].chain).native == gas;
    assert after.trace[j] == seen.trace[j] && after.trace[k] == seen.trace[k];
  }

  /** The tip is what the node suggests and at least one; the cap pays it on top of a
      doubled base fee. */
  ghost predicate PricedFor(baseFee: Option<nat>, suggested: nat, tip: int, feeCap: int) {
    && tip >= 1 && tip >= suggested && (tip == 1 || tip == suggested)
    && feeCap == tip + (if baseFee.Some? then 2 * baseFee.value else 0)
  }

  /** What a market asks now: the latest head and its time, and the fees to pay. */
  datatype Terms = Terms(head: nat, time: nat, tip: int, feeCap: int)

  /** These are the terms of a market the node reported during the call. */
  ghost predicate AtMarket(before: Moment, after: Moment, m: Terms) {
    exists baseFee, suggested ::
      Heard(before.heard, after.heard, Market(m.head, m.time, baseFee, suggested))
      && PricedFor(baseFee, suggested, m.tip, m.feeCap)
  }

  lemma MarketStays(before: Moment, mid: Moment, seen: Moment, after: Moment, m: Terms)
    requires AtMarket(mid, seen, m) && Extends(seen, after) && Extends(before, mid)
    ensures AtMarket(before, after, m) && 0 < m.tip <= m.feeCap
  {
    var baseFee, suggested :|
      Heard(mid.heard, seen.heard, Market(m.head, m.time, baseFee, suggested))
      && PricedFor(baseFee, suggested, m.tip, m.feeCap);
    HeardStays(before, mid, seen, after, Market(m.head, m.time, baseFee, suggested));
  }

  lemma HeardStays(before: Moment, mid: Moment, seen: Moment, after: Moment, a: Answer)
    requires Heard(mid.heard, seen.heard, a) && Extends(seen, after) && Extends(before, mid)
    ensures Heard(before.heard, after.heard, a)
  {
    var n :| |mid.heard| <= n < |seen.heard| && seen.heard[n] == a;
    assert after.heard[n] == a;
  }

  lemma CheckStays(before: Moment, mid: Moment, seen: Moment, after: Moment, c: Check)
    requires Checked(mid.checks, seen.checks, c) && Extends(seen, after) && Extends(before, mid)
    ensures Checked(before.checks, after.checks, c)
  {
    var n :| |mid.checks| <= n < |seen.checks| && seen.checks[n] == c;
    assert after.checks[n] == c;
  }

  lemma CapAboveTip(before: Moment, after: Moment, m: Terms)
    requires AtMarket(before, after, m)
    ensures 0 < m.tip <= m.feeCap
  {
  }

  /** What a decision is made on: balances, the terms of a market, and the venue's quote
      if it was asked. */
  datatype Reading = Reading(token: int, gas: int, at: Terms, quote: Option<int>)

  function Seen(policy: GasPolicy, r: Reading, pending: int): Gas.PolicyInput {
    Gas.PolicyInput(r.gas, r.token, r.at.feeCap * policy.GasLimit(Kind.Refill), r.quote, pending)
  }

  /** All of it was read during the call, the quote for the size the policy asked. */
  ghost predicate WasRead(policy: GasPolicy, before: Moment, after: Moment, pending: int, r: Reading) {
    && Saw(before, after, r.token, r.gas) && AtMarket(before, after, r.at)
    && (r.quote.Some? ==>
          var asked := Gas.Decide(policy, Seen(policy, r.(quote := None), pending));
          asked.Quote? && r.quote.value > 0 && Heard(before.heard, after.heard, Quoted(asked.delta, r.quote.value)))
  }

  lemma ReadStays(policy: GasPolicy, before: Moment, mid: Moment, seen: Moment, after: Moment, pending: int, r: Reading)
    requires WasRead(policy, mid, seen, pending, r) && Extends(seen, after) && Extends(before, mid)
    ensures WasRead(policy, before, after, pending, r)
  {
    hide Saw, AtMarket, Heard, Gas.Decide;
    SawStays(before, mid, seen, after, r.token, r.gas);
    MarketStays(before, mid, seen, after, r.at);
    if r.quote.Some? {
      var asked := Gas.Decide(policy, Seen(policy, r.(quote := None), pending));
      HeardStays(before, mid, seen, after, Quoted(asked.delta, r.quote.value));
    }
  }

  /** During the call the policy decided this, on what was read. */
  ghost predicate Decided(policy: GasPolicy, before: Moment, after: Moment, pending: int, d: Gas.Decision) {
    exists r :: WasRead(policy, before, after, pending, r) && Gas.Decide(policy, Seen(policy, r, pending)) == d
  }

  lemma DecidedStays(policy: GasPolicy, before: Moment, mid: Moment, seen: Moment, after: Moment, pending: int,
                     d: Gas.Decision)
    requires Decided(policy, mid, seen, pending, d) && Extends(seen, after) && Extends(before, mid)
    ensures Decided(policy, before, after, pending, d)
  {
    hide WasRead, Gas.Decide;
    var r :| WasRead(policy, mid, seen, pending, r) && Gas.Decide(policy, Seen(policy, r, pending)) == d;
    ReadStays(policy, before, mid, seen, after, pending, r);
  }

  /** The policy said execute on what was read, at this head. */
  ghost predicate GoAhead(policy: GasPolicy, before: Moment, after: Moment, pending: int, head: nat) {
    exists r :: WasRead(policy, before, after, pending, r) && r.at.head == head
                && Gas.Decide(policy, Seen(policy, r, pending)) == Gas.Execute
  }

  lemma GoAheadStays(policy: GasPolicy, before: Moment, mid: Moment, seen: Moment, after: Moment, pending: int,
                     head: nat)
    requires GoAhead(policy, mid, seen, pending, head) && Extends(seen, after) && Extends(before, mid)
    ensures GoAhead(policy, before, after, pending, head)
  {
    hide WasRead, Gas.Decide;
    var r :| WasRead(policy, mid, seen, pending, r) && r.at.head == head
             && Gas.Decide(policy, Seen(policy, r, pending)) == Gas.Execute;
    ReadStays(policy, before, mid, seen, after, pending, r);
  }

  /** What a refusal for a shortage says is what the policy decided. */
  ghost predicate Explained(policy: GasPolicy, before: Moment, after: Moment, pending: int, e: Error) {
    match e
    case InsufficientStablecoin => Decided(policy, before, after, pending, Gas.Wait(Gas.NeedToken))
    case InsufficientNative => Decided(policy, before, after, pending, Gas.Wait(Gas.NeedNative))
    case FeesAboveBound => Decided(policy, before, after, pending, Gas.Wait(Gas.FeesTooHigh))
    case NeedRefill => exists delta :: Decided(policy, before, after, pending, Gas.Quote(delta))
    case NoRefillNeeded => Decided(policy, before, after, pending, Gas.Execute)
    case _ => true
  }

  lemma ExplainedStays(policy: GasPolicy, before: Moment, mid: Moment, after: Moment, pending: int, e: Error)
    requires Explained(policy, mid, after, pending, e) && Extends(before, mid)
    ensures Explained(policy, before, after, pending, e)
  {
    hide Decided;
    forall d | Decided(policy, mid, after, pending, d) ensures Decided(policy, before, after, pending, d) {
      DecidedStays(policy, before, mid, after, after, pending, d);
    }
  }

  lemma AskedStays(policy: GasPolicy, before: Moment, mid: Moment, after: Moment, pending: int)
    requires Explained(policy, before, mid, pending, NeedRefill) && Extends(mid, after) && Extends(before, mid)
    ensures Explained(policy, before, after, pending, NeedRefill)
  {
    hide Decided;
    var delta :| Decided(policy, before, mid, pending, Gas.Quote(delta));
    DecidedStays(policy, before, before, mid, after, pending, Gas.Quote(delta));
  }

  /** What any other refusal to begin says: the node serves another chain, a call it was
      asked to run would not, something is in flight, or something else signed. */
  ghost predicate Barred(g: Config, before: Moment, after: Moment, e: Error) {
    match e
    case WrongDomain => exists id :: id != g.chainId && Checked(before.checks, after.checks, Served(id))
    case SimulationFailed =>
      exists to, data, gas :: Checked(before.checks, after.checks, Simulated(to, data, gas, false))
    case InFlight => after.trace != [] && PendingIds(after.trace[|after.trace| - 1].store) != {}
    case Unreconciled => after.trace != [] && Intruded(after.trace[|after.trace| - 1])
    case _ => true
  }

  lemma BarredStays(g: Config, before: Moment, mid: Moment, after: Moment, e: Error)
    requires Barred(g, mid, after, e) && Extends(before, mid) && Extends(mid, after)
    ensures Barred(g, before, after, e)
  {
    hide Checked;
    forall c | Checked(mid.checks, after.checks, c) ensures Checked(before.checks, after.checks, c) {
      CheckStays(before, mid, after, after, c);
    }
  }

  /** The very call recorded was run first, to the target and under the gas bound its
      transaction will carry; and its nonce was the account's next. */
  ghost predicate Rehearsed(g: Config, policy: GasPolicy, before: Moment, after: Moment, i: Intent) {
    CaughtUp(before.trace, after.trace, i.nonce)
    && Checked(before.checks, after.checks,
            Simulated(if i.kind.Refill? then i.to else g.token, i.calldata, policy.GasLimit(i.kind), true))
  }

  lemma RehearsedStays(g: Config, policy: GasPolicy, before: Moment, mid: Moment, seen: Moment, after: Moment,
                       i: Intent)
    requires Rehearsed(g, policy, mid, seen, i) && Extends(seen, after) && Extends(before, mid)
    ensures Rehearsed(g, policy, before, after, i)
  {
    CaughtUpStays(before.trace, mid.trace, seen.trace, after.trace, i.nonce);
    CheckStays(before, mid, seen, after,
               Simulated(if i.kind.Refill? then i.to else g.token, i.calldata, policy.GasLimit(i.kind), true));
  }

  /** A withdrawal was refused because there was nothing to send, or not enough native
      currency for the transfer at the market's fees. */
  ghost predicate CannotLeave(policy: GasPolicy, before: Moment, after: Moment, e: Error) {
    exists token, gas, m :: Saw(before, after, token, gas) && AtMarket(before, after, m)
      && (e.BadInput? ==> !(0 < token < UINT256_LIMIT))
      && (e.InsufficientNative? ==> 0 < token && gas < m.feeCap * policy.GasLimit(Kind.Withdraw))
  }

  /** A withdrawal of the whole balance read, at a market whose fees for its gas the
      native balance read covers; its attempt, if any, carries those very fees. */
  ghost predicate Left(g: Config, policy: GasPolicy, before: Moment, after: Moment, t: Sys, id: ID, to: Address,
                       r: Reading) {
    && id in t.store.intents
    && var i, limit := t.store.intents[id], policy.GasLimit(Kind.Withdraw);
    && IsPayment(i, Withdraw, to, r.token) && i.fromBlock == r.at.head
    && Saw(before, after, r.token, r.gas) && AtMarket(before, after, r.at)
    && r.at.feeCap * limit <= r.gas && AttemptedAt(t, id, r.at, limit) && Rehearsed(g, policy, before, after, i)
  }

  lemma LeavesAll(policy: GasPolicy, before: Moment, mid: Moment, seen: Moment, after: Moment, r: Reading)
    requires AtMarket(mid, seen, r.at) && Saw(mid, seen, r.token, r.gas)
    requires Extends(before, mid) && Extends(seen, after)
    ensures Saw(before, after, r.token, r.gas) && AtMarket(before, after, r.at)
    ensures !(0 < r.token < UINT256_LIMIT) ==> CannotLeave(policy, before, after, BadInput)
    ensures 0 < r.token && r.gas < r.at.feeCap * policy.GasLimit(Kind.Withdraw) ==>
              CannotLeave(policy, before, after, InsufficientNative)
  {
    hide Saw, AtMarket;
    SawStays(before, mid, seen, after, r.token, r.gas);
    MarketStays(before, mid, seen, after, r.at);
  }

  lemma LeftOn(g: Config, policy: GasPolicy, before: Moment, seen: Moment, after: Moment, t: Sys, id: ID, to: Address,
               r: Reading)
    requires id in t.store.intents && Extends(before, seen) && Extends(seen, after)
    requires IsPayment(t.store.intents[id], Withdraw, to, r.token) && t.store.intents[id].fromBlock == r.at.head
    requires Saw(before, after, r.token, r.gas) && AtMarket(before, after, r.at)
    requires r.at.feeCap * policy.GasLimit(Kind.Withdraw) <= r.gas
    requires AttemptedAt(t, id, r.at, policy.GasLimit(Kind.Withdraw))
    requires Rehearsed(g, policy, seen, after, t.store.intents[id])
    ensures Left(g, policy, before, after, t, id, to, r)
  {
    hide Saw, AtMarket, AttemptedAt, Rehearsed;
    RehearsedStays(g, policy, before, seen, after, after, t.store.intents[id]);
  }

  /** After looking, a withdrawal or nothing. */
  lemma Withdrawn(g: Config, policy: GasPolicy, s: Sys, t: Sys, u: Sys, before: Moment, mid: Moment, seen: Moment,
                  after: Moment, id: ID, to: Address, r: Reading)
    requires OnlyLooked(s, t) && AtMarket(mid, seen, r.at) && Saw(mid, seen, r.token, r.gas)
    requires Extends(before, mid) && Extends(mid, seen) && Extends(seen, after)
    requires 0 < r.token && r.at.feeCap * policy.GasLimit(Kind.Withdraw) <= r.gas
    requires OnlyLooked(t, u)
             || (OnlyBegan(t, u, id) && IsPayment(u.store.intents[id], Withdraw, to, r.token)
                 && u.store.intents[id].fromBlock == r.at.head
                 && AttemptedAt(u, id, r.at, policy.GasLimit(Kind.Withdraw))
                 && Rehearsed(g, policy, seen, after, u.store.intents[id]))
    ensures OnlyLooked(t, u) ==> OnlyLooked(s, u)
    ensures OnlyBegan(t, u, id) ==> OnlyBegan(s, u, id)
    ensures OnlyLooked(s, u) || (OnlyBegan(s, u, id) && Left(g, policy, before, after, u, id, to, r))
    ensures id in s.store.intents ==> OnlyLooked(s, u) && !OnlyBegan(t, u, id)
    ensures r.token < UINT256_LIMIT || CannotLeave(policy, before, after, BadInput)
  {
    hide OnlyLooked, OnlyBegan, Left, Saw, AtMarket, CannotLeave, Rehearsed, AttemptedAt, IsPayment;
    LeavesAll(policy, before, mid, seen, after, r);
    LookedTwice(s, t, u);
    if OnlyBegan(t, u, id) { LookedThenBegan(s, t, u, id); }
    if !OnlyLooked(t, u) { LeftOn(g, policy, before, seen, after, u, id, to, r); }
  }

  /** A refill at the configured venue, named by its nonce. */
  predicate IsRefill(g: Config, cfg: Settings, i: Intent) {
    && i.kind.Refill? && i.to == cfg.router && i.id == RefillID(g.account, i.nonce)
    && i.calldata.RefillCall?
    && i.calldata == RefillCall(i.amount, i.delta, i.amount, g.account, i.calldata.deadline)
  }

  /** The one operation begun is a refill of this size, good for an hour from the head it
      was decided at, and its call was run first. */
  ghost predicate BeganRefill(g: Config, cfg: Settings, s: Sys, t: Sys, before: Moment, after: Moment, id: ID,
                              delta: int, maxInput: int, m: Terms) {
    && OnlyBegan(s, t, id) && IsRefill(g, cfg, t.store.intents[id])
    && t.store.intents[id].delta == delta && t.store.intents[id].amount == maxInput
    && t.store.intents[id].fromBlock == m.head && t.store.intents[id].calldata.deadline == m.time + 3600
    && Rehearsed(g, cfg.policy, before, after, t.store.intents[id])
  }

  /** The attempts so far, at most one, carry a market's fees and this gas. */
  predicate AttemptedAt(s: Sys, id: ID, m: Terms, gas: nat) {
    forall k :: 0 <= k < |Subs(s.store, id)| ==>
      var sub := Subs(s.store, id)[k];
      sub.tip == m.tip && sub.feeCap == m.feeCap && sub.gas == gas
  }

  /** The one operation begun is a refill the policy decided on, on what was read. */
  ghost predicate Bought(g: Config, cfg: Settings, s: Sys, t: Sys, before: Moment, after: Moment, id: ID,
                         reserve: int) {
    exists r :: WasRead(cfg.policy, before, after, reserve, r) && BoughtOn(g, cfg, s, t, before, after, id, reserve, r)
  }

  /** It restores the maximum, may spend the least amount that covers the quote and its
      slippage and leaves the reserved payment, is good for an hour from the head it was
      decided at, was run first, and its attempt carries the very fees the decision was
      made at, so it costs no more than the fee bound. */
  ghost predicate BoughtOn(g: Config, cfg: Settings, s: Sys, t: Sys, before: Moment, after: Moment, id: ID,
                           reserve: int, r: Reading) {
    var limit := cfg.policy.GasLimit(Kind.Refill);
    && OnlyBegan(s, t, id) && IsRefill(g, cfg, t.store.intents[id]) && r.quote.Some?
    && var i := t.store.intents[id];
    && Gas.Decide(cfg.policy, Seen(cfg.policy, r, reserve)) == Gas.Buy(i.delta, i.amount)
    && r.gas - r.at.feeCap * limit + i.delta == cfg.policy.max && i.amount + reserve <= r.token
    && 10_000 * i.amount >= r.quote.value * (10_000 + cfg.policy.slippageBps) > 10_000 * (i.amount - 1)
    && i.fromBlock == r.at.head && i.calldata.deadline == r.at.time + 3600
    && Rehearsed(g, cfg.policy, before, after, i)
    && AttemptedAt(t, id, r.at, limit) && r.at.feeCap * limit <= cfg.policy.feeBound
  }

  /** After looking, a refill or nothing is one operation. */
  lemma RefillIsOne(g: Config, cfg: Settings, s: Sys, t: Sys, u: Sys, before: Moment, after: Moment, id: ID,
                    reserve: int)
    requires OnlyLooked(s, t)
    requires OnlyLooked(t, u) || exists x :: Bought(g, cfg, t, u, before, after, x, reserve)
    ensures OneOperation(s, u, id)
            || exists x :: OneOperation(s, u, x) && x in u.store.intents && IsRefill(g, cfg, u.store.intents[x])
  {
    hide OnlyLooked, OneOperation, WasRead, IsRefill, Gas.Decide;
    if OnlyLooked(t, u) {
      LookedThenRefilled(s, t, u, id);
    } else {
      var x :| Bought(g, cfg, t, u, before, after, x, reserve);
      LookedThenRefilled(s, t, u, x);
    }
  }

  lemma BoughtBy(g: Config, cfg: Settings, s: Sys, t: Sys, u: Sys, before: Moment, mid: Moment, seen: Moment,
                 after: Moment, id: ID, reserve: int, r: Reading, maxInput: int, delta: int)
    requires OnlyLooked(s, t) && BeganRefill(g, cfg, t, u, seen, after, id, delta, maxInput, r.at)
    requires AttemptedAt(u, id, r.at, cfg.policy.GasLimit(Kind.Refill))
    requires WasRead(cfg.policy, mid, seen, reserve, r)
    requires Extends(before, mid) && Extends(mid, seen) && Extends(seen, after)
    requires r.quote.Some? && Gas.Decide(cfg.policy, Seen(cfg.policy, r, reserve)) == Gas.Buy(delta, maxInput)
    ensures Bought(g, cfg, s, u, before, after, id, reserve)
  {
    hide WasRead, OnlyLooked, OnlyBegan, IsRefill, AttemptedAt, Rehearsed, Gas.WithSlippage;
    LookedThenBegan(s, t, u, id);
    ReadStays(cfg.policy, before, mid, seen, after, reserve, r);
    RehearsedStays(g, cfg.policy, before, seen, after, after, u.store.intents[id]);
    LeastThatCovers(r.quote.value, cfg.policy.slippageBps);
    assert BoughtOn(g, cfg, s, u, before, after, id, reserve, r);
  }

  lemma LeastThatCovers(quote: int, bps: nat)
    ensures var x := Gas.WithSlippage(quote, bps); 10_000 * x >= quote * (10_000 + bps) > 10_000 * (x - 1)
  {
    Gas.SlippageIsLeast(quote, bps, Gas.WithSlippage(quote, bps));
    Gas.SlippageIsLeast(quote, bps, Gas.WithSlippage(quote, bps) - 1);
  }

  /** Looking records nothing, so it keeps to whatever policy was followed. */
  lemma LookingFollows(g: Config, policy: GasPolicy, before: seq<Sys>, after: seq<Sys>)
    requires Run(g, after) && 0 < |before| && before <= after
    requires OnlyLooked(before[|before| - 1], after[|after| - 1])
             || after[|after| - 1].store.intents == before[|before| - 1].store.intents
    ensures Runway.Keeps(policy, before, after)
  {
    hide Run, Runway.Followed;
    if Runway.Followed(policy, before) { Runway.FollowedOn(g, policy, before, after); }
  }

  lemma KeepsOn(policy: GasPolicy, before: seq<Sys>, mid: seq<Sys>, after: seq<Sys>)
    requires Runway.Keeps(policy, before, mid) && Runway.Keeps(policy, mid, after)
    ensures Runway.Keeps(policy, before, after)
  {
  }

  /** Recording what the policy chose, on what was read once everything had settled,
      keeps to the policy. */
  lemma DecidingFollows(g: Config, policy: GasPolicy, before: seq<Sys>, mid: Moment, seen: Moment, after: seq<Sys>,
                        id: ID, pending: int, r: Reading)
    requires Run(g, after) && 0 < |before| && before <= mid.trace && Extends(mid, seen) && seen.trace <= after
    requires var ready, looked := mid.trace[|mid.trace| - 1], seen.trace[|seen.trace| - 1];
             && Ready(ready) && ready.store.intents == before[|before| - 1].store.intents
             && looked.store.intents == ready.store.intents && OnlyBegan(looked, after[|after| - 1], id)
    requires WasRead(policy, mid, seen, pending, r)
    requires var i := after[|after| - 1].store.intents[id];
             Gas.Decide(policy, Seen(policy, r, pending))
             == if i.kind.Refill? then Gas.Buy(i.delta, i.amount) else Gas.Execute
    ensures Runway.Keeps(policy, before, after)
  {
    hide Run, Ready, Runway.Followed, Runway.DecidedOn, Gas.Decide, WasRead;
    var start, last := |mid.trace| - 1, |seen.trace| - 1;
    assert after[start] == mid.trace[start] && after[last] == seen.trace[last];
    var k := MomentOf(policy, mid, seen, pending, r);
    assert after[k] == seen.trace[k];
    Runway.SameUntilLast(g, after, start, k, last);
    Runway.ReadyStays(g, after, start, k);
    ChosenDecides(policy, mid, seen, r, pending, after[|after| - 1].store.intents[id]);
    if Runway.Followed(policy, before) { Runway.FollowedWith(g, policy, before, after, id, k); }
  }

  lemma MomentOf(policy: GasPolicy, mid: Moment, seen: Moment, pending: int, r: Reading) returns (k: nat)
    requires WasRead(policy, mid, seen, pending, r)
    ensures |mid.trace| <= k + 1 <= |seen.trace|
    ensures seen.trace[k].chain.blocks != [] && Head(seen.trace[k].chain).native == r.gas
  {
    hide AtMarket, Heard, Gas.Decide;
    var m: nat, n: nat :| |mid.trace| <= m + 1 <= |seen.trace| && |mid.trace| <= n + 1 <= |seen.trace|
                          && seen.trace[m].chain.blocks != [] && Head(seen.trace[m].chain).balance == r.token
                          && seen.trace[n].chain.blocks != [] && Head(seen.trace[n].chain).native == r.gas;
    k := n;
  }

  lemma ChosenDecides(policy: GasPolicy, mid: Moment, seen: Moment, r: Reading, pending: int, i: Intent)
    requires WasRead(policy, mid, seen, pending, r)
    requires Gas.Decide(policy, Seen(policy, r, pending))
             == if i.kind.Refill? then Gas.Buy(i.delta, i.amount) else Gas.Execute
    ensures Runway.DecidedOn(policy, r.gas, i)
  {
    hide Gas.Decide, Saw, Heard;
    CapAboveTip(mid, seen, r.at);
    assert Runway.Chosen(policy, Reserve.Account(r.gas, r.token), r.at.feeCap, r.quote, pending, i);
  }

  /** A payment is recorded on an execute, or nothing is. */
  lemma PaymentFollows(g: Config, policy: GasPolicy, before: seq<Sys>, mid: Moment, seen: Moment, after: seq<Sys>,
                       id: ID, amount: int, head: nat)
    requires Run(g, after) && 0 < |before| && before <= mid.trace && Extends(mid, seen) && seen.trace <= after
    requires var ready, looked := mid.trace[|mid.trace| - 1], seen.trace[|seen.trace| - 1];
             && Ready(ready) && ready.store.intents == before[|before| - 1].store.intents
             && looked.store.intents == ready.store.intents
             && (OnlyBegan(looked, after[|after| - 1], id) || OnlyLooked(looked, after[|after| - 1]))
    requires GoAhead(policy, mid, seen, amount, head)
    requires var t := after[|after| - 1]; id in t.store.intents ==> !t.store.intents[id].kind.Refill?
    ensures Runway.Keeps(policy, before, after)
  {
    hide Run, Ready, Runway.Keeps, WasRead, Gas.Decide;
    if OnlyLooked(seen.trace[|seen.trace| - 1], after[|after| - 1]) {
      LookingFollows(g, policy, before, after);
    } else {
      var r :| WasRead(policy, mid, seen, amount, r) && r.at.head == head
               && Gas.Decide(policy, Seen(policy, r, amount)) == Gas.Execute;
      DecidingFollows(g, policy, before, mid, seen, after, id, amount, r);
    }
  }

  /** Some refill of this size began, and was attempted, if at all, at these fees. */
  ghost predicate SomeRefill(g: Config, cfg: Settings, s: Sys, t: Sys, before: Moment, after: Moment, delta: int,
                             maxInput: int, m: Terms) {
    exists id :: BeganRefill(g, cfg, s, t, before, after, id, delta, maxInput, m)
                 && AttemptedAt(t, id, m, cfg.policy.GasLimit(Kind.Refill))
  }

  /** A refill begins on the decision to make it, or nothing does. */
  lemma RefillFollows(g: Config, cfg: Settings, before: Moment, mid: Moment, seen: Moment, after: Moment,
                      reserve: int, r: Reading, delta: int, maxInput: int)
    requires Run(g, after.trace) && before.trace != []
             && Extends(before, mid) && Extends(mid, seen) && Extends(seen, after)
    requires var start, ready := before.trace[|before.trace| - 1], mid.trace[|mid.trace| - 1];
             var looked, t := seen.trace[|seen.trace| - 1], after.trace[|after.trace| - 1];
             && Ready(ready) && OnlyLooked(start, ready) && OnlyLooked(start, looked)
             && (OnlyLooked(looked, t) || SomeRefill(g, cfg, looked, t, seen, after, delta, maxInput, r.at))
    requires WasRead(cfg.policy, mid, seen, reserve, r)
    requires r.quote.Some? && Gas.Decide(cfg.policy, Seen(cfg.policy, r, reserve)) == Gas.Buy(delta, maxInput)
    ensures Runway.Keeps(cfg.policy, before.trace, after.trace)
    ensures var start, t := before.trace[|before.trace| - 1], after.trace[|after.trace| - 1];
            OnlyLooked(start, t) || exists id :: Bought(g, cfg, start, t, before, after, id, reserve)
  {
    hide Run, Ready, Runway.Keeps, WasRead, Gas.Decide, RefillID, Bought, AttemptedAt, Rehearsed;
    var start, looked := before.trace[|before.trace| - 1], seen.trace[|seen.trace| - 1];
    var t := after.trace[|after.trace| - 1];
    if OnlyLooked(looked, t) {
      LookedTwice(start, looked, t);
      LookingFollows(g, cfg.policy, before.trace, after.trace);
    } else {
      var id :| BeganRefill(g, cfg, looked, t, seen, after, id, delta, maxInput, r.at)
                && AttemptedAt(t, id, r.at, cfg.policy.GasLimit(Kind.Refill));
      DecidingFollows(g, cfg.policy, before.trace, mid, seen, after.trace, id, reserve, r);
      BoughtBy(g, cfg, start, looked, t, before, mid, seen, after, id, reserve, r, maxInput, delta);
    }
  }

  /** Sending records no operation. */
  lemma SendingFollows(g: Config, policy: GasPolicy, before: seq<Sys>, mid: seq<Sys>, after: seq<Sys>, id: ID)
    requires Run(g, after) && 0 < |before| && before <= mid <= after && Runway.Keeps(policy, before, mid)
    requires OnlyAttempted(g, mid[|mid| - 1], after[|after| - 1], id)
    ensures Runway.Keeps(policy, before, after)
    ensures after[|after| - 1].store.intents == mid[|mid| - 1].store.intents
  {
    hide Run, Runway.Keeps;
    LookingFollows(g, policy, mid, after);
    KeepsOn(policy, before, mid, after);
  }

  /** What was so of a payment when it was recorded is so of the call that sent it. */
  lemma JustPaid(g: Config, policy: GasPolicy, before: Moment, mid: Moment, after: Moment, i: Intent, amount: int)
    requires Extends(before, mid) && Extends(mid, after)
    requires GoAhead(policy, before, mid, amount, i.fromBlock) && Rehearsed(g, policy, before, mid, i)
    ensures GoAhead(policy, before, after, amount, i.fromBlock) && Rehearsed(g, policy, before, after, i)
  {
    hide GoAhead, Rehearsed;
    GoAheadStays(policy, before, before, mid, after, amount, i.fromBlock);
    RehearsedStays(g, policy, before, before, mid, after, i);
  }

  lemma StaysReady(s: Sys, t: Sys)
    requires Ready(s) && t.store == s.store && Spent(s.chain) <= Spent(t.chain)
    ensures Ready(t)
  {
  }

  lemma LookedThenBegan(s: Sys, t: Sys, u: Sys, id: ID)
    requires OnlyLooked(s, t) && OnlyBegan(t, u, id)
    ensures OnlyBegan(s, u, id) && id !in s.store.intents && id in u.store.intents
  {
  }

  /** Looking first changes nothing about what was bought. */
  lemma LookedThenBought(g: Config, cfg: Settings, s: Sys, t: Sys, u: Sys, before: Moment, mid: Moment, after: Moment,
                         id: ID, reserve: int)
    requires OnlyLooked(s, t) && Extends(before, mid) && Bought(g, cfg, t, u, mid, after, id, reserve)
    ensures Bought(g, cfg, s, u, before, after, id, reserve)
  {
    hide WasRead, OnlyLooked, OnlyBegan, IsRefill, AttemptedAt, Rehearsed, Gas.Decide;
    var r :| WasRead(cfg.policy, mid, after, reserve, r) && BoughtOn(g, cfg, t, u, mid, after, id, reserve, r);
    LookedThenBegan(s, t, u, id);
    ReadStays(cfg.policy, before, mid, after, after, reserve, r);
    RehearsedStays(g, cfg.policy, before, mid, after, after, u.store.intents[id]);
    assert BoughtOn(g, cfg, s, u, before, after, id, reserve, r);
  }

  /** Recording, then attempting, begins one operation. */
  lemma BeganThenAttempted(g: Config, s: Sys, t: Sys, u: Sys, id: ID)
    requires OnlyBegan(s, t, id) && Subs(t.store, id) == [] && OnlyAttempted(g, t, u, id)
    ensures OnlyBegan(s, u, id) && u.store.intents[id] == t.store.intents[id]
  {
    assert u.store.intents == t.store.intents;
  }

  /** Some transaction of the account is signed at this nonce or above. */
  ghost predicate SignedFrom(c: Chain, nonce: nat) {
    exists tx :: (tx in c.ours || tx in c.foreign) && tx.nonce >= nonce
  }

  /** At some moment of a stretch of the run nothing of the account was mined at this
      nonce or above, and at a later one everything below had settled. */
  ghost predicate CaughtUp(before: seq<Sys>, after: seq<Sys>, nonce: nat) {
    exists j, k :: 0 <= j <= k < |after| && |before| <= j + 1 && after[j].chain.blocks != []
                   && Head(after[j].chain).nonce <= nonce == Spent(after[k].chain)
  }

  lemma CaughtUpStays(before: seq<Sys>, mid: seq<Sys>, seen: seq<Sys>, after: seq<Sys>, nonce: nat)
    requires CaughtUp(mid, seen, nonce) && before <= mid && seen <= after
    ensures CaughtUp(before, after, nonce)
  {
    var j, k :| 0 <= j <= k < |seen| && |mid| <= j + 1 && seen[j].chain.blocks != []
                && Head(seen[j].chain).nonce <= nonce == Spent(seen[k].chain);
    assert after[j] == seen[j] && after[k] == seen[k];
  }

  /** Recording the intent is all that happened, or nothing did. */
  lemma BeganNow(g: Config, s: Sys, t: Sys, u: Sys, i: Intent)
    requires OnlyLooked(s, t) && (u == t || u == Apply(g, t, RecordIntent(i)))
    requires i.id in t.store.intents || (Subs(t.store, i.id) == [] && i.id !in t.store.facts)
    ensures u == t ==> OnlyLooked(s, u)
    ensures u != t ==> OnlyBegan(s, u, i.id) && Fresh(u, i.id) && u.chain.ours == s.chain.ours
                       && u.store.intents[i.id] == i
    ensures t.store.intents == s.store.intents
  {
  }

  /** A node that counts more, or fewer, than have settled has seen a transaction that
      had not. */
  lemma UnsettledIsSigned(g: Config, s: Sys, t: Sys, u: Sys, v: Sys, pending: nat)
    requires Inv(g, t) && Inv(g, u) && Quiet(g, s, t) && Quiet(g, t, u) && Quiet(g, u, v)
    requires Head(t.chain).nonce <= pending != Spent(u.chain)
    requires forall n: nat :: Head(t.chain).nonce <= n < pending ==> Signed(t.chain, n)
    ensures SignedFrom(v.chain, Spent(s.chain))
  {
    hide HonestInv, BalanceInv, RecordsInv, AttemptsInv, WriteAhead, OneInFlight, FactsInv, FloorInv, ScanInv;
    var settled := Spent(u.chain);
    if settled < Head(t.chain).nonce {
      SpenderSigned(g, t.chain, settled);
    } else if settled < pending {
      assert Signed(t.chain, settled);
    } else {
      SpenderSigned(g, u.chain, pending);
    }
  }

  lemma SpenderSigned(g: Config, c: Chain, n: nat)
    requires BlocksInv(c) && NoncesInv(g, c) && c.blocks[0].nonce <= n < Head(c).nonce
    ensures SignedFrom(c, n)
  {
    assert OwnMined(g, c, c.spender[n]);
  }

  /** When everything recorded had settled, nothing of the rail's own is at an unspent
      nonce. */
  lemma ReadyIntruded(g: Config, s: Sys, t: Sys)
    requires Inv(g, t) && Ready(s) && t.store == s.store && SignedFrom(t.chain, Spent(s.chain))
    ensures Intruded(t)
  {
    hide ChainInv, BalanceInv, OneInFlight, FactsInv, ScanInv;
    var tx :| (tx in t.chain.ours || tx in t.chain.foreign) && tx.nonce >= Spent(s.chain);
    if tx in t.chain.ours { OursBelow(g, t, tx, Spent(s.chain)); }
  }

  lemma OursBelow(g: Config, s: Sys, tx: Tx, nonce: nat)
    requires RecordsInv(g, s.store) && AttemptsInv(g, s.store) && WriteAhead(s) && tx in s.chain.ours
    requires forall id :: id in s.store.intents ==> s.store.intents[id].nonce < nonce
    ensures tx.nonce < nonce
  {
    var id :| id in s.store.subs && HasHash(s.store.subs[id], HashOf(tx));
    AttemptIsIntent(g, s, id, tx);
  }

  /** Looking after recording changes nothing. */
  lemma BeganThenQuiet(g: Config, s: Sys, t: Sys, u: Sys, id: ID)
    requires OnlyBegan(s, t, id) && Quiet(g, t, u)
    ensures OnlyBegan(s, u, id) && u.store == t.store && id in t.store.intents
  {
  }

  lemma BeganIsNew(s: Sys, t: Sys, id: ID)
    requires OnlyBegan(s, t, id)
    ensures !OnlyLooked(s, t)
  {
  }

  lemma StillThere(g: Config, s: Sys, t: Sys, id: ID)
    requires OnlyAttempted(g, s, t, id)
    ensures t.store.intents == s.store.intents
  {
  }

  lemma NoAttempts(s: Sys, id: ID, m: Terms, gas: nat)
    ensures Subs(s.store, id) == [] ==> AttemptedAt(s, id, m, gas)
  {
  }

  predicate AtMostAdded(before: seq<Submission>, after: seq<Submission>, sub: Submission) {
    after == before || after == before + [sub]
  }

  lemma LookedThenAttempted(g: Config, s: Sys, t: Sys, u: Sys, id: ID)
    requires OnlyLooked(s, t) && t.store == s.store && OnlyAttempted(g, t, u, id)
    ensures OnlyAttempted(g, s, u, id)
  {
  }

  lemma NotAttempted(g: Config, s: Sys, t: Sys, id: ID)
    requires OnlyLooked(s, t) && t.store == s.store
    ensures OnlyAttempted(g, s, t, id)
  {
  }

  /** The attempt is recorded, and is with the network or its nonce already spent. */
  ghost predicate Launched(s: Sys, id: ID, h: Hash) {
    HasHash(Subs(s.store, id), h) && h.HashOf? && WithTheNetwork(s.chain, h.tx)
  }

  /** The attempt is recorded as it stands. */
  ghost predicate Resend(g: Config, s: Sys, i: Intent, sub: Submission) {
    sub.txHash == HashOf(TxFor(g, i, sub)) && HasHash(Subs(s.store, i.id), sub.txHash)
  }

  /** A new attempt may be recorded. */
  ghost predicate MayStart(s: Sys, i: Intent, sub: Submission) {
    i.id !in s.store.facts && FeeRule(Subs(s.store, i.id), sub) && sub.txHash.ZeroHash?
  }

  ghost predicate Fresh(s: Sys, id: ID) {
    Subs(s.store, id) == [] && id !in s.store.facts
  }

  /** The one attempt so far, at a market's fees and the policy's gas. */
  ghost predicate FirstAttempt(policy: GasPolicy, s: Sys, id: ID, before: Moment, after: Moment) {
    && id in s.store.intents && |Subs(s.store, id)| == 1
    && exists m :: AtMarket(before, after, m) && AttemptedAt(s, id, m, policy.GasLimit(s.store.intents[id].kind))
  }

  lemma FirstStays(policy: GasPolicy, s: Sys, id: ID, before: Moment, mid: Moment, after: Moment)
    requires FirstAttempt(policy, s, id, mid, after) && Extends(before, mid)
    ensures FirstAttempt(policy, s, id, before, after)
  {
    hide AttemptedAt, AtMarket;
    var m :| AtMarket(mid, after, m) && AttemptedAt(s, id, m, policy.GasLimit(s.store.intents[id].kind));
    MarketStays(before, mid, after, after, m);
  }

  lemma AttemptedFirst(policy: GasPolicy, s: Sys, id: ID, m: Terms, before: Moment, mid: Moment, seen: Moment,
                       after: Moment)
    requires id in s.store.intents && |Subs(s.store, id)| == 1
    requires AttemptedAt(s, id, m, policy.GasLimit(s.store.intents[id].kind))
    requires AtMarket(mid, seen, m) && Extends(seen, after) && Extends(before, mid)
    ensures FirstAttempt(policy, s, id, before, after)
  {
    hide AttemptedAt, AtMarket;
    MarketStays(before, mid, seen, after, m);
  }

  /** A payment or withdrawal of this amount to this address. */
  predicate IsPayment(i: Intent, kind: Kind, to: Address, amount: int) {
    i.kind == kind && i.to == to && i.amount == amount
  }

  lemma AccountedBy(r: Records, id: ID)
    requires id in r.intents && id in r.facts && !r.facts[id].txHash.ZeroHash?
    ensures Accounted(r, r.intents[id].nonce)
  {
  }

  /** While looking at attempts one by one: not mined, or not settled yet. */
  ghost predicate NotSettled(c: Chain, h: Hash, settled: nat) {
    h.HashOf? && h.tx in c.receipts ==> c.receipts[h.tx].block > settled
  }

  lemma StaysNotSettled(g: Config, s: Sys, t: Sys, h: Hash, settled: nat)
    requires Quiet(g, s, t) && NotSettled(s.chain, h, settled) && settled <= s.chain.settled
    ensures NotSettled(t.chain, h, settled)
  {
  }

  /** What walking the attempts backwards finds is the outcome. */
  lemma NothingFound(g: Config, s: Sys, i: Intent, settled: nat)
    requires Inv(g, s) && i.id in s.store.intents && s.store.intents[i.id] == i
    requires settled <= s.chain.settled && i.nonce < NonceAt(s.chain, settled)
    requires forall k :: 0 <= k < |Subs(s.store, i.id)| ==> NotSettled(s.chain, Subs(s.store, i.id)[k].txHash, settled)
    ensures IsOutcome(g, s, i, Fact(ZeroHash, 0, false))
  {
    forall tx ensures !MinedAttempt(s, i.id, tx) {
      if MinedAttempt(s, i.id, tx) {
        AttemptIsIntent(g, s, i.id, tx);
        SpentIsSettled(g, s.chain, tx, settled);
      }
    }
  }

  lemma ExecutedBy(g: Config, i: Intent, r: Receipt, k: nat)
    requires r.success && k < |r.logs| && !r.logs[k].removed
    requires TransferLog(r.logs[k], g.token, g.account, i.to, i.amount)
    ensures Executed(g, i, r)
  {
  }

  function Classify(f: Option<Fact>): Status {
    match f
    case None => Pending
    case Some(fact) => if fact.executed then Confirmed else Failed
  }

  /** A refill's identifier: its account, and its nonce in eight bytes. */
  function RefillID(account: Address, nonce: nat): ID {
    Refilled(account, Bytes(nonce, 8))
  }

  /** Two refills of one account never share an identifier. */
  lemma RefillsAreDistinct(account: Address, a: nat, b: nat)
    requires a < 0x1_0000_0000_0000_0000 && b < 0x1_0000_0000_0000_0000
    ensures RefillID(account, a) == RefillID(account, b) <==> a == b
  {
    Powers();
    BytesRead(a, 8);
    BytesRead(b, 8);
  }

  /** Fills the eight bytes, most significant first (rail.go:668). */
  method NameRefill(account: Address, nonce: nat) returns (id: ID)
    ensures id == RefillID(account, nonce)
  {
    var n := new nat[8];
    var rest := nonce;
    var i := 0;
    ghost var at := nonce;
    while i < 8
      invariant 0 <= i <= 8
      invariant Bytes(nonce, 8) == Bytes(rest, 8 - i) + n[8 - i..]
    {
      n[7 - i] := rest % 256;
      assert Bytes(rest, 8 - i) == Bytes(rest / 256, 7 - i) + [rest % 256];
      rest := rest / 256;
      i := i + 1;
      assert n[8 - i..] == [n[8 - i]] + n[9 - i..];
    }
    assert n[..] == n[0..];
    return Refilled(account, n[..]);
  }

  class Rail {
    const w: World
    const cfg: Settings
    var chainChecked: bool

    constructor (w: World, cfg: Settings)
      ensures this.w == w && this.cfg == cfg && !chainChecked
    {
      this.w, this.cfg := w, cfg;
      chainChecked := false;
    }

    // ----- status.go -----

    /** The outcome of an intent, for a nonce spent at a block already settled. A failed
        query leaves the store as it was. */
    method FindOutcome(i: Intent, settled: nat) returns (r: Result<Fact>)
      requires w.Valid() && i.id in w.sys.store.intents && w.sys.store.intents[i.id] == i
      requires settled <= w.sys.chain.settled && i.nonce < NonceAt(w.sys.chain, settled)
      modifies w`sys, w`trace, w`failures
      ensures w.Valid() && old(w.trace) <= w.trace && Quiet(w.g, old(w.sys), w.sys)
      ensures Failing(r, old(w.failures), w.failures)
      ensures r.Ok? ==> MaySettle(w.g, w.sys, i.id, r.value)
      ensures r.Err? ==> r.error == Unavailable
    {
      hide Run, Inv, Later;
      var subs :- w.Submissions(i.id);
      var k := |subs|;
      while k > 0
        invariant w.Valid() && old(w.trace) <= w.trace && Quiet(w.g, old(w.sys), w.sys)
        invariant w.failures == old(w.failures)
        invariant 0 <= k <= |subs| && subs == Subs(w.sys.store, i.id)
        invariant settled <= w.sys.chain.settled && NonceAt(w.sys.chain, settled) == NonceAt(old(w.sys).chain, settled)
        invariant forall j :: k <= j < |subs| ==> NotSettled(w.sys.chain, subs[j].txHash, settled)
        decreases k
      {
        k := k - 1;
        ghost var before := w.sys;
        var got := w.TransactionReceipt(subs[k].txHash);
        QuietTrans(w.g, old(w.sys), before, w.sys);
        if got.Err? { return Err(Unavailable); }
        forall j | k < j < |subs| ensures NotSettled(w.sys.chain, subs[j].txHash, settled) {
          StaysNotSettled(w.g, before, w.sys, subs[j].txHash, settled);
        }
        if got.value.Some? && got.value.value.block <= settled {
          var rec := got.value.value;
          var done := DidExecute(i, rec);
          r := Ok(Fact(subs[k].txHash, rec.block, done));
          FoundIsOutcome(i, k, r.value, settled);
          return;
        }
      }
      w.Sound();
      NothingFound(w.g, w.sys, i, settled);
      SpentBy(settled);
      return Ok(Fact(ZeroHash, 0, false));
    }

    lemma SpentBy(settled: nat)
      requires Inv(w.g, w.sys) && settled <= w.sys.chain.settled
      ensures NonceAt(w.sys.chain, settled) <= Spent(w.sys.chain) <= Head(w.sys.chain).nonce
    {
    }

    lemma FoundIsOutcome(i: Intent, k: nat, f: Fact, settled: nat)
      requires w.Valid() && i.id in w.sys.store.intents && w.sys.store.intents[i.id] == i
      requires settled <= w.sys.chain.settled && i.nonce < NonceAt(w.sys.chain, settled)
      requires k < |Subs(w.sys.store, i.id)| && Subs(w.sys.store, i.id)[k].txHash == f.txHash
      requires f.txHash.HashOf? && f.txHash.tx in w.sys.chain.receipts
      requires f.block == w.sys.chain.receipts[f.txHash.tx].block
      requires f.executed == Executed(w.g, i, w.sys.chain.receipts[f.txHash.tx])
      ensures MaySettle(w.g, w.sys, i.id, f)
    {
      hide Run, Inv;
      w.Sound();
      SpentBy(settled);
      assert HasHash(Subs(w.sys.store, i.id), f.txHash);
    }

    /** Whether a receipt carried the intent out: for a payment, by its transfer. */
    method DidExecute(i: Intent, rec: Receipt) returns (yes: bool)
      ensures yes == Executed(w.g, i, rec)
    {
      if !rec.success { return false; }
      if i.kind.Refill? { return true; }
      var k := 0;
      while k < |rec.logs|
        invariant 0 <= k <= |rec.logs|
        invariant forall j :: 0 <= j < k ==>
                    rec.logs[j].removed || !TransferLog(rec.logs[j], w.g.token, w.g.account, i.to, i.amount)
      {
        if !rec.logs[k].removed && TransferLog(rec.logs[k], w.g.token, w.g.account, i.to, i.amount) {
          ExecutedBy(w.g, i, rec, k);
          return true;
        }
        k := k + 1;
      }
      return false;
    }

    /** The answer is what the cached fact says afterwards; without one, the nonce was
        unspent when the call began. Attempts, intents and broadcasts do not change. */
    method StatusOf(i: Intent) returns (r: Result<Status>)
      requires w.Valid() && i.id in w.sys.store.intents && w.sys.store.intents[i.id] == i
      modifies w`sys, w`trace, w`failures
      ensures w.Valid() && old(w.trace) <= w.trace && OnlyLooked(old(w.sys), w.sys)
      ensures Failing(r, old(w.failures), w.failures)
      ensures w.sys.store.floor == old(w.sys.store.floor)
      ensures Spent(old(w.sys).chain) <= Spent(w.sys.chain)
      ensures forall id :: id in old(w.sys).store.facts ==> id in w.sys.store.facts
      ensures r.Ok? ==>
                && r.value != Unknown && (r.value == Pending <==> i.id !in w.sys.store.facts)
                && (r.value == Confirmed <==> i.id in w.sys.store.facts && w.sys.store.facts[i.id].executed)
                && (r.value == Failed <==> i.id in w.sys.store.facts && !w.sys.store.facts[i.id].executed)
      ensures r == Ok(Pending) ==> i.nonce >= Spent(old(w.sys.chain))
      ensures r.Err? ==> r.error == Unavailable
    {
      hide Run, Inv, Later, IsOutcome, MaySettle;
      var cached :- w.Fact(i.id);
      if cached.Some? {
        return Ok(Classify(cached));
      }
      var head :- w.SettledHead();
      var spent :- w.NonceAtBlock(head);
      if i.nonce >= spent { return Ok(Pending); }
      var found :- CacheOutcome(i, head);
      return Ok(Classify(Some(found)));
    }

    /** What settled is found and cached. */
    method CacheOutcome(i: Intent, head: nat) returns (r: Result<Fact>)
      requires w.Valid() && i.id in w.sys.store.intents && w.sys.store.intents[i.id] == i
      requires head <= w.sys.chain.settled && i.nonce < NonceAt(w.sys.chain, head)
      modifies w`sys, w`trace, w`failures
      ensures w.Valid() && old(w.trace) <= w.trace && OnlyLooked(old(w.sys), w.sys)
      ensures Failing(r, old(w.failures), w.failures)
      ensures w.sys.store.floor == old(w.sys).store.floor
      ensures old(w.sys).chain.settled <= w.sys.chain.settled && Spent(old(w.sys).chain) <= Spent(w.sys.chain)
      ensures NonceAt(w.sys.chain, head) == NonceAt(old(w.sys).chain, head)
      ensures forall id :: id in old(w.sys).store.facts ==> id in w.sys.store.facts
      ensures forall n :: Accounted(old(w.sys).store, n) ==> Accounted(w.sys.store, n)
      ensures r.Ok? ==> i.id in w.sys.store.facts
                        && (i.id !in old(w.sys).store.facts ==> w.sys.store.facts[i.id] == r.value)
      ensures r.Err? ==> r.error == Unavailable
    {
      hide Run, Inv, Later, IsOutcome, Accounted, MaySettle;
      var found :- FindOutcome(i, head);
      ghost var before := w.sys;
      var put := w.Write(RecordFact(i.id, found));
      AccountedSurvives(before.store, w.sys.store);
      if put.Err? { return Err(Unavailable); }
      return Ok(found);
    }

    /** Status of an identifier (status.go:50). */
    method StatusById(id: ID) returns (r: Result<Status>)
      requires w.Valid()
      modifies w`sys, w`trace, w`failures
      ensures w.Valid() && old(w.trace) <= w.trace && OnlyLooked(old(w.sys), w.sys)
      ensures Failing(r, old(w.failures), w.failures)
      ensures r.Ok? ==>
                && (r.value == Unknown <==> id !in w.sys.store.intents)
                && (r.value == Pending <==> id in w.sys.store.intents && id !in w.sys.store.facts)
                && (r.value == Confirmed <==> id in w.sys.store.facts && w.sys.store.facts[id].executed)
                && (r.value == Failed <==> id in w.sys.store.facts && !w.sys.store.facts[id].executed)
      ensures r == Ok(Confirmed) ==> Lifecycle.CarriedOut(w.g, w.sys, id)
      ensures r == Ok(Failed) ==> forall tx :: MinedAttempt(w.sys, id, tx) ==>
                                     !Executed(w.g, w.sys.store.intents[id], w.sys.chain.receipts[tx])
      ensures r == Ok(Pending) ==> id in w.sys.store.intents && w.sys.store.intents[id].nonce >= Spent(old(w.sys.chain))
    {
      hide Run, Inv, Later, IsOutcome;
      var i :- w.Intent(id);
      FactsOwned();
      if i.None? { return Ok(Unknown); }
      HasItsId(id);
      r := StatusOf(i.value);
      FactsOwned();
      if id in w.sys.store.facts { AnswerIsTrue(id); }
    }

    lemma FactsOwned()
      requires w.Valid()
      ensures forall id :: id in w.sys.store.facts ==> id in w.sys.store.intents
    {
      w.Sound();
      forall id | id in w.sys.store.facts ensures id in w.sys.store.intents {
        assert id in w.sys.store.facts.Keys;
      }
    }

    /** What a cached fact says is so on the chain. */
    lemma AnswerIsTrue(id: ID)
      requires w.Valid() && id in w.sys.store.facts
      ensures id in w.sys.store.intents
      ensures w.sys.store.facts[id].executed ==> Lifecycle.CarriedOut(w.g, w.sys, id)
      ensures !w.sys.store.facts[id].executed ==>
                forall tx :: MinedAttempt(w.sys, id, tx) ==>
                  !Executed(w.g, w.sys.store.intents[id], w.sys.chain.receipts[tx])
    {
      hide Run, Executed, MinedAttempt;
      Lifecycle.ConfirmedExactly(w.g, w.trace, |w.trace| - 1, id);
      Lifecycle.SettledForever(w.g, w.trace, |w.trace| - 1, |w.trace| - 1, id);
    }

    lemma HasItsId(id: ID)
      requires w.Valid() && id in w.sys.store.intents
      ensures w.sys.store.intents[id].id == id
    {
      w.Sound();
    }

    /** The settled fact of an operation, if it has one. */
    method Outcome(id: ID) returns (r: Result<Option<Fact>>)
      requires w.Valid()
      modifies w`sys, w`trace, w`failures
      ensures w.Valid() && old(w.trace) <= w.trace && OnlyLooked(old(w.sys), w.sys)
      ensures Failing(r, old(w.failures), w.failures)
      ensures r.Ok? ==> id in w.sys.store.intents
                        && r.value == if id in w.sys.store.facts then Some(w.sys.store.facts[id]) else None
      ensures r == Ok(None) ==> w.sys.store.intents[id].nonce >= Spent(old(w.sys.chain))
      ensures r.Err? ==> r.error == Unavailable || (r.error == NoIntent && id !in w.sys.store.intents)
    {
      hide Run, Inv, Later, IsOutcome;
      var i :- w.Intent(id);
      if i.None? { return Err(NoIntent); }
      HasItsId(id);
      var status :- StatusOf(i.value);
      if status.Pending? { return Ok(None); }
      var f :- w.Fact(id);
      return Ok(f);
    }

    /** What a settled refill consumed: nothing if it failed, else exactly what its
        one payment to the venue was. */
    method RefillCost(id: ID) returns (r: Result<int>)
      requires w.Valid()
      modifies w`sys, w`trace, w`failures
      ensures w.Valid() && old(w.trace) <= w.trace && OnlyLooked(old(w.sys), w.sys)
      ensures Failing(r, old(w.failures), w.failures)
      ensures r.Ok? ==>
                && id in w.sys.store.facts && id in w.sys.store.intents && w.sys.store.intents[id].kind.Refill?
                && (if w.sys.store.facts[id].executed
                    then Books.RefillCost(w.g, w.sys, w.sys.store.facts[id]) == Some(r.value)
                    else r.value == 0)
      ensures r.Err? ==>
                || r.error == Unavailable
                || (r.error == NoIntent && id !in w.sys.store.intents)
                || (r.error == BadInput && id in w.sys.store.intents
                    && (w.sys.store.intents[id].kind.Refill? ==>
                          id in w.sys.store.facts && w.sys.store.facts[id].executed
                          && Books.RefillCost(w.g, w.sys, w.sys.store.facts[id]).None?))
                || (r.error == InFlight && id !in w.sys.store.facts)
    {
      hide Run, Inv, Later, IsOutcome;
      var i :- w.Intent(id);
      if i.None? { return Err(NoIntent); }
      if !i.value.kind.Refill? { return Err(BadInput); }
      HasItsId(id);
      var status :- StatusOf(i.value);
      if status.Pending? { return Err(InFlight); }
      if status.Failed? { return Ok(0); }
      var f :- w.Fact(id);
      ReceiptIsKnown(id);
      if f.None? || f.value.txHash.ZeroHash? { return Err(Unreconciled); }
      var rec :- w.TransactionReceipt(f.value.txHash);
      ReceiptIsKnown(id);
      if rec.None? { return Err(Unavailable); }
      var spent := SentTransferValues(rec.value.logs, w.g.token, w.g.account);
      if |spent| != 1 { return Err(BadInput); }
      return Ok(spent[0]);
    }

    lemma ReceiptIsKnown(id: ID)
      requires w.Valid() && id in w.sys.store.facts && w.sys.store.facts[id].executed
      requires id in w.sys.store.intents && w.sys.store.intents[id].kind.Refill?
      ensures var h := w.sys.store.facts[id].txHash; h.HashOf? && h.tx in w.sys.chain.receipts
    {
      Books.RefillCostIsExact(w.g, w.trace, |w.trace| - 1, id);
    }

    /** The account's money and the settled block it is at. */
    method SettledBalances() returns (r: Result<(int, int, nat)>)
      requires w.Valid()
      modifies w`sys, w`trace, w`failures
      ensures w.Valid() && old(w.trace) <= w.trace && OnlyLooked(old(w.sys), w.sys)
      ensures Failing(r, old(w.failures), w.failures)
      ensures r.Ok? ==> var (token, gas, block) := r.value;
                        old(w.sys).chain.settled <= block <= w.sys.chain.settled && block < |w.sys.chain.blocks|
                        && token == w.sys.chain.blocks[block].balance && gas == w.sys.chain.blocks[block].native
      ensures r.Err? ==> r.error == Unavailable
    {
      hide Run, Inv, Later;
      var head :- w.SettledHead();
      var held :- w.BalancesAtBlock(head);
      return Ok((held.0, held.1, head));
    }

    /** On success every nonce from the floor to what was spent when the call began is
        accounted for, and the floor has moved past it. A refusal shows an orphaned nonce
        among those spent; with one signer there is none. */
    method Reconcile() returns (r: Result<()>)
      requires w.Valid()
      modifies w`sys, w`trace, w`failures
      ensures w.Valid() && old(w.trace) <= w.trace && OnlyLooked(old(w.sys), w.sys)
      ensures Failing(r, old(w.failures), w.failures)
      ensures r.Ok? ==> w.sys.store.floor.Some? && Spent(old(w.sys.chain)) <= w.sys.store.floor.value
      ensures r.Ok? && old(w.sys).store.floor.Some? ==>
                forall n :: old(w.sys).store.floor.value <= n < Spent(old(w.sys.chain)) ==> Accounted(w.sys.store, n)
      ensures Spent(old(w.sys).chain) <= Spent(w.sys.chain)
      ensures r == Err(Unreconciled) ==>
                w.sys.store.floor.Some? && w.sys.store.floor == old(w.sys).store.floor
                && exists n :: w.sys.store.floor.value <= n < Spent(w.sys.chain) && Orphaned(w.sys.store, n)
      ensures SoleSigner(w.sys) ==> r != Err(Unreconciled)
      ensures r.Err? ==> r.error == Unavailable || r.error == Unreconciled
    {
      hide Run, Inv, Later, IsOutcome, Accounted, Orphaned, SoleSigner;
      var head :- w.SettledHead();
      var spent :- w.NonceAtBlock(head);
      var floor :- w.NonceFloor();
      FloorReach(spent, head);
      if floor.None? {
        r := w.Write(MoveFloor(spent));
        return;
      }
      var _ :- ReconcileUpTo(spent, floor.value, head);
      FloorReach(spent, head);
      ghost var before := w.sys.store;
      r := w.Write(MoveFloor(spent));
      AccountedSurvives(before, w.sys.store);
    }

    /** Every nonce from the floor to the one spent is accounted for, or one is orphaned. */
    method ReconcileUpTo(spent: nat, floor: nat, head: nat) returns (r: Result<()>)
      requires w.Valid() && head <= w.sys.chain.settled && spent == NonceAt(w.sys.chain, head) <= Spent(w.sys.chain)
      requires w.sys.store.floor == Some(floor)
      modifies w`sys, w`trace, w`failures
      ensures w.Valid() && old(w.trace) <= w.trace && OnlyLooked(old(w.sys), w.sys)
      ensures Failing(r, old(w.failures), w.failures)
      ensures w.sys.store.floor == Some(floor)
      ensures head <= w.sys.chain.settled && spent == NonceAt(w.sys.chain, head)
      ensures Spent(old(w.sys).chain) <= Spent(w.sys.chain)
      ensures r.Ok? ==> forall n :: floor <= n < spent ==> Accounted(w.sys.store, n)
      ensures r == Err(Unreconciled) ==> exists n :: floor <= n < Spent(w.sys.chain) && Orphaned(w.sys.store, n)
      ensures SoleSigner(w.sys) ==> r != Err(Unreconciled)
      ensures r.Err? ==> r.error == Unavailable || r.error == Unreconciled
    {
      hide Run, Inv, Later, IsOutcome, Accounted, Orphaned, SoleSigner;
      var nonce := floor;
      while nonce < spent
        invariant w.Valid() && old(w.trace) <= w.trace && OnlyLooked(old(w.sys), w.sys)
        invariant w.failures == old(w.failures)
        invariant w.sys.store.floor == Some(floor) && floor <= nonce
        invariant head <= w.sys.chain.settled && spent == NonceAt(w.sys.chain, head) <= Spent(w.sys.chain)
        invariant Spent(old(w.sys).chain) <= Spent(w.sys.chain)
        invariant forall n :: floor <= n < nonce ==> Accounted(w.sys.store, n)
        decreases if nonce < spent then spent - nonce else 0
      {
        var one := ReconcileNonce(nonce, head);
        if one.Err? { return one; }
        nonce := nonce + 1;
      }
      return Ok(());
    }

    /** One nonce of the restart procedure. */
    method ReconcileNonce(nonce: nat, head: nat) returns (r: Result<()>)
      requires w.Valid() && head <= w.sys.chain.settled && nonce < NonceAt(w.sys.chain, head) <= Spent(w.sys.chain)
      requires w.sys.store.floor.Some? && w.sys.store.floor.value <= nonce
      modifies w`sys, w`trace, w`failures
      ensures w.Valid() && old(w.trace) <= w.trace && OnlyLooked(old(w.sys), w.sys)
      ensures Failing(r, old(w.failures), w.failures)
      ensures w.sys.store.floor == old(w.sys).store.floor
      ensures old(w.sys).chain.settled <= w.sys.chain.settled && Spent(old(w.sys).chain) <= Spent(w.sys.chain)
      ensures NonceAt(w.sys.chain, head) == NonceAt(old(w.sys).chain, head)
      ensures r.Ok? ==> Accounted(w.sys.store, nonce)
      ensures forall n :: Accounted(old(w.sys).store, n) ==> Accounted(w.sys.store, n)
      ensures r == Err(Unreconciled) ==> Orphaned(w.sys.store, nonce)
      ensures SoleSigner(w.sys) ==> r != Err(Unreconciled)
      ensures r.Err? ==> r.error == Unavailable || r.error == Unreconciled
    {
      hide Run, Inv, Later, IsOutcome, Accounted, MaySettle;
      var i :- w.IntentByNonce(nonce);
      if i.None? {
        if SoleSigner(w.sys) { SoleSignerWonIt(nonce); }
        return Err(Unreconciled);
      }
      var intent := i.value;
      var f :- SettledFact(intent, head);
      FactSettles(intent.id);
      if f.txHash.ZeroHash? {
        if SoleSigner(w.sys) { SoleSignerHasWinner(intent.id, nonce); }
        return Err(Unreconciled);
      }
      AccountedBy(w.sys.store, intent.id);
      return Ok(());
    }

    /** The fact of an intent whose nonce is spent: the cached one, or what settled,
        cached now. */
    method SettledFact(i: Intent, head: nat) returns (r: Result<Fact>)
      requires w.Valid() && i.id in w.sys.store.intents && w.sys.store.intents[i.id] == i
      requires head <= w.sys.chain.settled && i.nonce < NonceAt(w.sys.chain, head)
      modifies w`sys, w`trace, w`failures
      ensures w.Valid() && old(w.trace) <= w.trace && OnlyLooked(old(w.sys), w.sys)
      ensures Failing(r, old(w.failures), w.failures)
      ensures w.sys.store.floor == old(w.sys).store.floor
      ensures old(w.sys).chain.settled <= w.sys.chain.settled && Spent(old(w.sys).chain) <= Spent(w.sys.chain)
      ensures NonceAt(w.sys.chain, head) == NonceAt(old(w.sys).chain, head)
      ensures r.Ok? ==> i.id in w.sys.store.facts && w.sys.store.facts[i.id] == r.value
      ensures forall n :: Accounted(old(w.sys).store, n) ==> Accounted(w.sys.store, n)
      ensures r.Err? ==> r.error == Unavailable
    {
      hide Run, Inv, Later, IsOutcome, Accounted, MaySettle;
      var cached :- w.Fact(i.id);
      if cached.Some? { return Ok(cached.value); }
      r := CacheOutcome(i, head);
    }

    lemma FactSettles(id: ID)
      requires w.Valid() && id in w.sys.store.facts
      ensures MaySettle(w.g, w.sys, id, w.sys.store.facts[id])
    {
      w.Sound();
    }

    lemma SoleSignerWonIt(nonce: nat)
      requires w.Valid() && SoleSigner(w.sys) && nonce < Spent(w.sys.chain)
      requires w.sys.store.floor.Some? && w.sys.store.floor.value <= nonce
      ensures Lifecycle.Won(w.sys, nonce) && NonceTaken(w.sys.store, nonce)
    {
      w.Sound();
      Lifecycle.SoleSignerWon(w.g, w.sys, nonce);
    }

    lemma SoleSignerHasWinner(id: ID, nonce: nat)
      requires w.Valid() && SoleSigner(w.sys) && nonce < Spent(w.sys.chain)
      requires w.sys.store.floor.Some? && w.sys.store.floor.value <= nonce
      requires id in w.sys.store.facts && id in w.sys.store.intents && w.sys.store.intents[id].nonce == nonce
      ensures !w.sys.store.facts[id].txHash.ZeroHash?
    {
      SoleSignerWonIt(nonce);
      w.Sound();
      FactSettles(id);
    }

    /** The floor may be set to the nonce read at a settled head. */
    lemma FloorReach(spent: nat, head: nat)
      requires w.Valid() && head <= w.sys.chain.settled && spent == NonceAt(w.sys.chain, head)
      ensures w.sys.chain.blocks != [] && w.sys.chain.blocks[0].nonce <= spent <= Spent(w.sys.chain)
    {
      w.Sound();
    }

    lemma ScanBegins()
      requires w.Valid()
      ensures Covered(w.g, w.sys, ScanStart(w.g, w.sys.store.cursor))
      ensures w.g.fromBlock <= ScanStart(w.g, w.sys.store.cursor) <= w.sys.chain.settled + 1 || w.sys.store.cursor.None?
    {
      w.Sound();
      if w.sys.store.cursor.Some? {
        assert ScannedTo(w.g, w.sys, w.sys.store.cursor.value);
      }
    }

    /** When it completes, every deposit at or below the head that was settled when it
        began is recorded, and exactly those of the blocks it covered are returned, once
        each. The spans it covered are consecutive and narrow; interrupted, it leaves a state the
        next scan continues from. */
    method ScanDeposits() returns (found: seq<LogKey>, r: Result<()>, ghost spans: seq<(nat, nat)>)
      requires w.Valid()
      modifies w`sys, w`trace, w`failures
      ensures w.Valid() && old(w.trace) <= w.trace && OnlyScanned(old(w.sys), w.sys)
      ensures Failing(r, old(w.failures), w.failures)
      ensures r.Ok? ==> ScannedTo(w.g, w.sys, old(w.sys).chain.settled)
      ensures r.Ok? && w.g.fromBlock <= old(w.sys).chain.settled ==>
                w.sys.store.cursor.Some? && old(w.sys).chain.settled <= w.sys.store.cursor.value
      ensures Consecutive(ScanStart(w.g, old(w.sys).store.cursor), spans)
      ensures r.Ok? ==> ScanStart(w.g, w.sys.store.cursor) == Reached(ScanStart(w.g, old(w.sys).store.cursor), spans)
      ensures forall k :: k in found ==> k in w.sys.store.deposits
      ensures r.Ok? ==> var start := ScanStart(w.g, old(w.sys).store.cursor);
                        ListsDeposits(w.g, w.sys.chain, found, start, Reached(start, spans)) && NoneTwice(found)
      ensures r.Err? ==> r.error == Unavailable
    {
      hide Run, Inv, Later, DepositAt, Consecutive, Reached, Covered, ScannedTo, ListsDeposits, NoneTwice;
      found, spans := [], [];
      ghost var start := ScanStart(w.g, w.sys.store.cursor);
      NoSpans(start);
      r := Err(Unavailable);
      var head := w.SettledHead();
      if head.Err? { return; }
      var to := head.value;
      var cursor := w.Cursor();
      if cursor.Err? { return; }
      var from := ScanStart(w.g, cursor.value);
      ScanBegins();
      NothingListed(w.g, w.sys.chain, start);
      while from <= to
        invariant w.Valid() && old(w.trace) <= w.trace && OnlyScanned(old(w.sys), w.sys)
        invariant w.failures == old(w.failures)
        invariant old(w.sys).chain.settled <= to <= w.sys.chain.settled && w.g.fromBlock <= from
        invariant Covered(w.g, w.sys, from)
        invariant Consecutive(ScanStart(w.g, old(w.sys).store.cursor), spans)
        invariant from == Reached(ScanStart(w.g, old(w.sys).store.cursor), spans)
        invariant from == ScanStart(w.g, w.sys.store.cursor) && start <= from && (from <= to + 1 || found == [])
        invariant spans != [] ==> var end := spans[|spans| - 1]; end.1 == end.0 + 9_999 || end.1 == to
        invariant spans != [] ==> from == spans[|spans| - 1].1 + 1
        invariant ListsDeposits(w.g, w.sys.chain, found, start, from) && NoneTwice(found)
        invariant forall k :: k in found ==> k in w.sys.store.deposits
        decreases if from <= to then to + 1 - from else 0
      {
        ghost var before, listed := w.sys, found;
        var some, last, span := ScanSpan(from, to);
        found := found + some;
        if span.Err? { return; }
        ListsJoin(w.g, before.chain, w.sys.chain, listed, some, start, from, last + 1);
        OneMoreSpan(ScanStart(w.g, old(w.sys).store.cursor), spans, last);
        spans := spans + [(from, last)];
        from := last + 1;
      }
      CoveredIsScanned(w.g, w.sys, from - 1);
      r := Ok(());
    }

    /** One span: query, record, move the cursor. */
    method ScanSpan(from: nat, to: nat) returns (found: seq<LogKey>, last: nat, r: Result<()>)
      requires w.Valid() && w.g.fromBlock <= from <= to <= w.sys.chain.settled
      requires Covered(w.g, w.sys, from) && from == ScanStart(w.g, w.sys.store.cursor)
      modifies w`sys, w`trace, w`failures
      ensures w.Valid() && old(w.trace) <= w.trace && OnlyScanned(old(w.sys), w.sys)
      ensures Failing(r, old(w.failures), w.failures)
      ensures to <= w.sys.chain.settled && from <= last <= to && last < from + 10_000
      ensures last == to || last == from + 9_999
      ensures forall k :: k in found ==> k in w.sys.store.deposits
      ensures Later(w.g, old(w.sys).chain, w.sys.chain)
      ensures r.Ok? ==> Covered(w.g, w.sys, last + 1) && ScanStart(w.g, w.sys.store.cursor) == last + 1
      ensures r.Ok? ==> ListsDeposits(w.g, w.sys.chain, found, from, last + 1) && NoneTwice(found)
      ensures r.Err? ==> r.error == Unavailable
    {
      hide Run, Inv, Later, DepositAt, AnswersFilter, Covered, ScannedTo, ListsDeposits, NoneTwice;
      last := if from + MAX_SCAN_SPAN - 1 < to then from + MAX_SCAN_SPAN - 1 else to;
      found := [];
      ghost var before := w.sys;
      var logs := w.FilterLogs(from, last);
      CoveredStays(w.g, before, w.sys, from);
      if logs.Err? { return found, last, Err(Unavailable); }
      found, r := RecordSpan(from, last, logs.value);
      if r.Err? { return; }
      CoveredIsScanned(w.g, w.sys, last);
      ghost var scanned := w.sys;
      r := w.Write(MoveCursor(last));
      if r.Err? { return; }
      CursorKeepsScan(scanned, last);
    }

    lemma NoSpans(start: nat)
      ensures Consecutive(start, []) && Reached(start, []) == start
    {
    }

    lemma CursorKeepsScan(s: Sys, block: nat)
      requires w.sys.chain == s.chain && w.sys.store.deposits == s.store.deposits && Covered(w.g, s, block + 1)
      ensures Covered(w.g, w.sys, block + 1)
    {
    }

    /** Records the incoming transfers among one span's logs. */
    method RecordSpan(from: nat, last: nat, logs: seq<FoundLog>) returns (found: seq<LogKey>, r: Result<()>)
      requires w.Valid() && AnswersFilter(w.g, w.sys.chain, from, last, logs)
      requires w.g.fromBlock <= from && last <= w.sys.chain.settled && Covered(w.g, w.sys, from)
      modifies w`sys, w`trace, w`failures
      ensures w.Valid() && old(w.trace) <= w.trace && OnlyScanned(old(w.sys), w.sys)
      ensures Failing(r, old(w.failures), w.failures)
      ensures w.sys.chain == old(w.sys).chain && w.sys.store.cursor == old(w.sys).store.cursor
      ensures forall k :: k in found ==> k in w.sys.store.deposits
      ensures r.Ok? ==> Covered(w.g, w.sys, last + 1) && ListsDeposits(w.g, w.sys.chain, found, from, last + 1)
                        && NoneTwice(found)
      ensures r.Err? ==> r.error == Unavailable
    {
      hide Run, Inv, DepositAt, IsFound;
      found := [];
      var n := 0;
      while n < |logs|
        invariant w.Valid() && old(w.trace) <= w.trace && OnlyScanned(old(w.sys), w.sys)
        invariant w.failures == old(w.failures)
        invariant w.sys.chain == old(w.sys).chain && w.sys.store.cursor == old(w.sys).store.cursor
        invariant 0 <= n <= |logs|
        invariant forall j :: 0 <= j < n && Incoming(w.g, logs[j].log) ==> logs[j].key in found
        invariant forall k :: k in found ==> KeyAmong(w.g, logs[..n], k)
        invariant NoneTwice(found)
        invariant forall k :: k in found ==> k in w.sys.store.deposits
      {
        var l := logs[n].log;
        if Incoming(w.g, l) {
          FoundIsDeposit(w.g, w.sys.chain, from, last, logs[n]);
          var put := w.Write(RecordDeposit(logs[n].key, Deposit(AddressOf(l.topics[1]), Word(l), logs[n].block)));
          if put.Err? { return found, Err(Unavailable); }
          KeyIsNew(w.g, logs, n);
          found := found + [logs[n].key];
        }
        KeysStay(w.g, logs, n);
        n := n + 1;
      }
      assert logs[..n] == logs;
      CoverSpan(w.g, w.sys, from, last, logs);
      SpanListed(w.g, w.sys.chain, from, last, logs, found);
      return found, Ok(());
    }

    // ----- rail.go -----

    /** Afterwards the nonce of whatever is unresolved was unspent when the call began. */
    method Settle() returns (r: Result<()>)
      requires w.Valid()
      modifies w`sys, w`trace, w`failures
      ensures w.Valid() && old(w.trace) <= w.trace && OnlyLooked(old(w.sys), w.sys)
      ensures Failing(r, old(w.failures), w.failures)
      ensures w.sys.store.floor == old(w.sys).store.floor
      ensures r.Ok? ==> Unsettled(w.sys.store, Spent(old(w.sys).chain))
      ensures r.Err? ==> r.error == Unavailable
    {
      hide Run, Inv, Later;
      var pending :- w.Pending();
      ghost var start := w.sys;
      var k := 0;
      while k < |pending|
        invariant 0 <= k <= |pending|
        invariant w.Valid() && old(w.trace) <= w.trace && OnlyLooked(old(w.sys), w.sys)
        invariant w.failures == old(w.failures)
        invariant w.sys.store.floor == old(w.sys).store.floor
        invariant Spent(old(w.sys).chain) <= Spent(w.sys.chain)
        invariant forall id :: id in start.store.facts ==> id in w.sys.store.facts
        invariant forall j :: 0 <= j < k ==>
                    pending[j].id in w.sys.store.facts || pending[j].nonce >= Spent(old(w.sys).chain)
        invariant forall j :: 0 <= j < |pending| ==>
                    pending[j].id in w.sys.store.intents && w.sys.store.intents[pending[j].id] == pending[j]
      {
        var _ :- StatusOf(pending[k]);
        k := k + 1;
      }
      PendingUnsettled(start.store, w.sys.store, pending, Spent(old(w.sys).chain));
      return Ok(());
    }

    /** On success nothing is unresolved and every recorded nonce is spent and accounted
        for. A refusal shows an operation whose nonce was unspent when the call began, or
        an orphaned nonce, which one signer never has. */
    method BecomeReady() returns (r: Result<()>)
      requires w.Valid()
      modifies this, w`sys, w`trace, w`checks, w`failures
      ensures w.Valid() && old(w.trace) <= w.trace && old(w.checks) <= w.checks && OnlyLooked(old(w.sys), w.sys)
      ensures Failing(r, old(w.failures), w.failures)
      ensures r.Ok? ==> Ready(w.sys) && chainChecked && Spent(old(w.sys).chain) <= w.sys.store.floor.value
      ensures old(chainChecked) ==> chainChecked && r != Err(WrongDomain)
      ensures r.Ok? && !old(chainChecked) ==> Checked(old(w.checks), w.checks, Served(w.g.chainId))
      ensures r.Err? ==> Barred(w.g, old(w.Now()), w.Now(), r.error)
      ensures r == Err(Unreconciled) ==>
                w.sys.store.floor.Some? && Intruded(w.sys)
                && exists n :: w.sys.store.floor.value <= n < Spent(w.sys.chain) && Orphaned(w.sys.store, n)
      ensures SoleSigner(w.sys) ==> r != Err(Unreconciled)
      ensures r.Err? ==> r.error in {Unavailable, WrongDomain, Unreconciled, InFlight}
      ensures r == Err(InFlight) ==> PendingIds(w.sys.store) != {} && Unsettled(w.sys.store, Spent(old(w.sys).chain))
    {
      hide Run, Inv, Later, Intruded, SoleSigner, Orphaned, Accounted, IsOutcome;
      if !chainChecked {
        var served :- w.ChainID();
        assert w.checks[|old(w.checks)|] == Served(served);
        assert Checked(old(w.checks), w.checks, Served(served));
        if served != w.g.chainId { return Err(WrongDomain); }
        chainChecked := true;
      }
      var reconciled := Reconcile();
      if reconciled.Err? {
        if reconciled.error.Unreconciled? { OrphanIntrudes(); }
        return reconciled;
      }
      var _ :- Settle();
      var pending :- w.Pending();
      PendingListed(w.sys.store, pending);
      if |pending| > 0 { return Err(InFlight); }
      AllSpent();
      return Ok(());
    }

    lemma OrphanIntrudes()
      requires w.Valid() && w.sys.store.floor.Some?
      requires exists n :: w.sys.store.floor.value <= n < Spent(w.sys.chain) && Orphaned(w.sys.store, n)
      ensures Intruded(w.sys)
    {
      w.Sound();
      var n :| w.sys.store.floor.value <= n < Spent(w.sys.chain) && Orphaned(w.sys.store, n);
      Lifecycle.OrphanIsForeign(w.g, w.sys, n);
    }

    lemma AllSpent()
      requires w.Valid() && AllResolved(w.sys.store) && w.sys.store.floor.Some?
      ensures Ready(w.sys)
    {
      w.Sound();
      forall id | id in w.sys.store.intents ensures w.sys.store.intents[id].nonce < Spent(w.sys.chain) {
        FactSettles(id);
      }
    }

    /** The intent, unless it is already resolved. */
    method Unresolved(id: ID) returns (r: Result<Option<Intent>>)
      requires w.Valid()
      modifies w`sys, w`trace, w`failures
      ensures w.Valid() && old(w.trace) <= w.trace
      ensures Failing(r, old(w.failures), w.failures)
      ensures OnlyLooked(old(w.sys), w.sys) && w.sys.store == old(w.sys).store
      ensures r.Ok? ==> id in w.sys.store.intents && w.sys.store.intents[id].id == id
                        && r.value == if id in w.sys.store.facts then None else Some(w.sys.store.intents[id])
      ensures r.Err? ==> r.error == Unavailable || (r.error == NoIntent && id !in w.sys.store.intents)
    {
      hide Run, Inv, Later;
      var i :- w.Intent(id);
      if i.None? { return Err(NoIntent); }
      HasItsId(id);
      var f :- w.Fact(id);
      return Ok(if f.Some? then None else i);
    }

    /** The number and time of the latest head, and the fees of the market as the node
        reports it now. */
    method Fees() returns (r: Result<Terms>)
      requires w.Valid()
      modifies w
      ensures w.Valid() && Extends(old(w.Now()), w.Now()) && |w.heard| <= |old(w.heard)| + 1
      ensures Failing(r, old(w.failures), w.failures)
      ensures OnlyLooked(old(w.sys), w.sys) && w.sys.store == old(w.sys).store
      ensures Spent(old(w.sys).chain) <= Spent(w.sys.chain)
      ensures r.Ok? ==> AtMarket(old(w.Now()), w.Now(), r.value) && 0 < r.value.tip <= r.value.feeCap
      ensures r.Err? ==> r.error == Unavailable
    {
      hide Run, Inv, Later;
      var market :- w.FeeMarket();
      var (head, time, baseFee, suggested) := market;
      var tip := if suggested == 0 then 1 else suggested;
      var feeCap := if baseFee.Some? then tip + 2 * baseFee.value else tip;
      assert w.heard[|old(w.heard)|] == Market(head, time, baseFee, suggested);
      assert Heard(old(w.heard), w.heard, Market(head, time, baseFee, suggested));
      return Ok(Terms(head, time, tip, feeCap));
    }

    /** The two balances as they are now, with a refill's cost at this fee cap. */
    method PolicyInput(at: Terms) returns (r: Result<Reading>)
      requires w.Valid()
      modifies w`sys, w`trace, w`failures
      ensures w.Valid() && old(w.trace) <= w.trace
      ensures Failing(r, old(w.failures), w.failures)
      ensures OnlyLooked(old(w.sys), w.sys) && w.sys.store == old(w.sys).store
      ensures Spent(old(w.sys).chain) <= Spent(w.sys.chain)
      ensures r.Ok? ==> Saw(old(w.Now()), w.Now(), r.value.token, r.value.gas)
                        && r.value.at == at && r.value.quote.None?
      ensures r.Err? ==> r.error == Unavailable
    {
      hide Run, Inv, Later;
      var token :- w.TokenBalance();
      ghost var j := |w.trace| - 1;
      assert w.trace[j] == w.sys;
      var gas :- w.NativeBalance();
      BothSeen(old(w.Now()), w.Now(), j, token, gas);
      return Ok(Reading(token, gas, at, None));
    }

    /** The account's next nonce: whatever of the account had been mined at some moment
        of the call had settled by a later one. A refusal shows a transaction at a nonce
        that was unspent when the call began; when everything recorded had settled then,
        something else signed it. */
    method NextNonce() returns (r: Result<nat>)
      requires w.Valid()
      modifies w`sys, w`trace, w`failures
      ensures w.Valid() && old(w.trace) <= w.trace
      ensures Failing(r, old(w.failures), w.failures)
      ensures OnlyLooked(old(w.sys), w.sys) && w.sys.store == old(w.sys).store
      ensures Spent(old(w.sys).chain) <= Spent(w.sys.chain)
      ensures r.Ok? ==> Spent(old(w.sys).chain) <= r.value <= Spent(w.sys.chain)
                        && CaughtUp(old(w.trace), w.trace, r.value)
      ensures r == Err(Unreconciled) ==> SignedFrom(w.sys.chain, Spent(old(w.sys).chain))
      ensures r == Err(Unreconciled) && Ready(old(w.sys)) ==> Intruded(w.sys)
      ensures r.Err? ==> r.error == Unavailable || r.error == Unreconciled
    {
      hide Run, Inv, Later, Ready, Intruded;
      ghost var start := w.sys;
      var pending :- w.PendingNonce();
      ghost var asked, j := w.sys, |w.trace| - 1;
      w.Sound();
      SpentBy(w.sys.chain.settled);
      var head :- w.SettledHead();
      ghost var seen, k := w.sys, |w.trace| - 1;
      w.Sound();
      var settled :- w.NonceAtBlock(head);
      w.Sound();
      if pending != settled {
        UnsettledIsSigned(w.g, start, asked, seen, w.sys, pending);
        if Ready(start) { ReadyIntruded(w.g, start, w.sys); }
        return Err(Unreconciled);
      }
      SpentBy(head);
      assert w.trace[j] == asked && w.trace[k] == seen;
      return Ok(pending);
    }

    /** A nonce for a call that has just been run: above every recorded one, and for the
        taking. */
    method NonceFor(target: Address, data: Calldata, gas: nat) returns (r: Result<nat>)
      requires w.Valid() && Ready(w.sys)
      modifies w`sys, w`trace, w`checks, w`failures
      ensures w.Valid() && old(w.trace) <= w.trace && old(w.checks) <= w.checks
      ensures Failing(r, old(w.failures), w.failures)
      ensures OnlyLooked(old(w.sys), w.sys) && w.sys.store == old(w.sys).store && Ready(w.sys)
      ensures r.Ok? ==>
                && Checked(old(w.checks), w.checks, Simulated(target, data, gas, true))
                && w.sys.store.floor.value <= r.value <= Spent(w.sys.chain) && CaughtUp(old(w.trace), w.trace, r.value)
                && forall id :: id in w.sys.store.intents ==> w.sys.store.intents[id].nonce < r.value
      ensures r.Err? ==> r.error in {Unavailable, SimulationFailed, Unreconciled}
      ensures r.Err? ==> Barred(w.g, old(w.Now()), w.Now(), r.error)
    {
      hide Run, Inv, Later, Intruded, CaughtUp;
      ghost var before, mid := w.trace, w.trace;
      var ran := w.Simulate(target, data, gas);
      JustChecked(old(w.checks), w.checks);
      var _ :- ran;
      mid := w.trace;
      r := NextNonce();
      if r.Ok? { CaughtUpStays(before, mid, w.trace, w.trace, r.value); }
    }

    /** At most one intent is new: the one asked for, on a nonce above every recorded one,
        with no attempt yet. Only an identifier already recorded conflicts. */
    method Record(id: ID, kind: Kind, to: Address, amount: int, head: nat) returns (r: Result<()>)
      requires w.Valid() && Ready(w.sys) && !kind.Refill?
      modifies w`sys, w`trace, w`checks, w`failures
      ensures w.Valid() && old(w.trace) <= w.trace && old(w.checks) <= w.checks
      ensures Failing(r, old(w.failures), w.failures)
      ensures OnlyLooked(old(w.sys), w.sys)
              || (OnlyBegan(old(w.sys), w.sys, id) && Fresh(w.sys, id) && w.sys.chain.ours == old(w.sys).chain.ours
                  && IsPayment(w.sys.store.intents[id], kind, to, amount)
                  && w.sys.store.intents[id].fromBlock == head
                  && Rehearsed(w.g, cfg.policy, old(w.Now()), w.Now(), w.sys.store.intents[id]))
      ensures r.Ok? ==> OnlyBegan(old(w.sys), w.sys, id)
      ensures r.Err? && r.error != Unavailable ==> OnlyLooked(old(w.sys), w.sys)
      ensures r == Err(IntentConflict) ==> id in old(w.sys).store.intents
      ensures r == Err(BadInput) ==> to == ZERO_ADDRESS || !(0 < amount < UINT256_LIMIT)
      ensures r.Err? ==> r.error in {Unavailable, SimulationFailed, Unreconciled, BadInput, IntentConflict}
      ensures r.Err? ==> Barred(w.g, old(w.Now()), w.Now(), r.error)
    {
      hide Run, Inv, Later, Checked, OnlyLooked, CaughtUp;
      var data := TransferCall(to, amount);
      ghost var start, begun := w.sys, w.trace;
      var nonce :- NonceFor(w.g.token, data, cfg.policy.GasLimit(kind));
      var i := Intent(id, kind, to, amount, 0, nonce, data, head);
      FreshNonce(nonce);
      ghost var looked, seen := w.sys, w.trace;
      r := w.PutIntent(i);
      CaughtUpStays(begun, begun, seen, w.trace, nonce);
      BeganNow(w.g, start, looked, w.sys, i);
    }

    lemma JustChecked(before: seq<Check>, after: seq<Check>)
      requires |after| == |before| + 1 && before <= after
      ensures Checked(before, after, after[|before|])
    {
    }

    /** No recorded nonce reaches one taken when everything is resolved. */
    lemma FreshNonce(nonce: nat)
      requires w.Valid() && AllResolved(w.sys.store) && w.sys.store.floor.Some?
      requires forall id :: id in w.sys.store.intents ==> w.sys.store.intents[id].nonce < nonce
      ensures !NonceTaken(w.sys.store, nonce)
      ensures forall id :: id in w.sys.store.intents ==> w.sys.store.intents[id].nonce != nonce
      ensures forall id :: id !in w.sys.store.intents ==> Subs(w.sys.store, id) == [] && id !in w.sys.store.facts
    {
      w.Sound();
      forall id | id !in w.sys.store.intents ensures Subs(w.sys.store, id) == [] && id !in w.sys.store.facts {
        assert id !in w.sys.store.subs.Keys && id !in w.sys.store.facts.Keys;
      }
    }

    /** At most this attempt is added, and only attempts at this intent can have been
        broadcast. On success the attempt is recorded and with the network. */
    method Submit(i: Intent, sub: Submission) returns (r: Result<Hash>)
      requires w.Valid() && i.id in w.sys.store.intents && w.sys.store.intents[i.id] == i
      requires Resend(w.g, w.sys, i, sub) || MayStart(w.sys, i, sub)
      modifies w`sys, w`trace, w`failures
      ensures w.Valid() && old(w.trace) <= w.trace && OnlyAttempted(w.g, old(w.sys), w.sys, i.id)
      ensures Failing(r, old(w.failures), w.failures)
      ensures Resend(w.g, old(w.sys), i, sub) ==> w.sys.store == old(w.sys).store
      ensures r.Ok? ==> r.value == HashOf(TxFor(w.g, i, sub)) && Launched(w.sys, i.id, r.value)
      ensures r.Ok? && sub.txHash.ZeroHash? ==>
                Subs(w.sys.store, i.id) == Subs(old(w.sys).store, i.id) + [sub.(txHash := r.value)]
      ensures AtMostAdded(Subs(old(w.sys).store, i.id), Subs(w.sys.store, i.id),
                          sub.(txHash := HashOf(TxFor(w.g, i, sub))))
      ensures r.Err? ==> r.error == Unavailable
    {
      hide Run, Inv, Later, FeeRule, WithTheNetwork, Recorded, Resend, MayStart, HasHash;
      var tx :- Sign(i, sub);
      HashIsRecorded(w.sys.store, i.id, tx);
      var reply := w.SendTransaction(tx);
      if reply.Refused? { return Err(Unavailable); }
      return Ok(HashOf(tx));
    }

    /** Signs an attempt; it is durable before anything can be broadcast. */
    method Sign(i: Intent, sub: Submission) returns (r: Result<Tx>)
      requires w.Valid() && i.id in w.sys.store.intents && w.sys.store.intents[i.id] == i
      requires Resend(w.g, w.sys, i, sub) || MayStart(w.sys, i, sub)
      modifies w`sys, w`trace, w`failures
      ensures w.Valid() && old(w.trace) <= w.trace && OnlyAttempted(w.g, old(w.sys), w.sys, i.id)
      ensures Failing(r, old(w.failures), w.failures)
      ensures w.sys.chain == old(w.sys).chain
      ensures Resend(w.g, old(w.sys), i, sub) ==> w.sys.store == old(w.sys).store
      ensures r.Ok? ==> r.value == TxFor(w.g, i, sub) && HasHash(Subs(w.sys.store, i.id), HashOf(r.value))
      ensures r.Ok? ==>
                var tx := r.value;
                && tx.chainId == w.g.chainId && tx.sender == w.g.account && tx.nonce == i.nonce
                && tx.to == (if i.kind.Refill? then i.to else w.g.token) && tx.data == i.calldata
                && tx.tip == sub.tip && tx.feeCap == sub.feeCap && tx.gas == sub.gas
      ensures r.Ok? && sub.txHash.ZeroHash? ==>
                Subs(w.sys.store, i.id) == Subs(old(w.sys).store, i.id) + [sub.(txHash := HashOf(r.value))]
      ensures AtMostAdded(Subs(old(w.sys).store, i.id), Subs(w.sys.store, i.id),
                          sub.(txHash := HashOf(TxFor(w.g, i, sub))))
      ensures r.Err? ==> r.error == Unavailable
    {
      hide Run, Inv, Later, FeeRule;
      var tx := TxFor(w.g, i, sub);
      if sub.txHash == HashOf(tx) { return Ok(tx); }
      var signed := sub.(txHash := HashOf(tx));
      FeesUnsigned(Subs(w.sys.store, i.id), sub, signed);
      ghost var n := |Subs(w.sys.store, i.id)|;
      var put := w.Write(RecordAttempt(i.id, signed));
      if put.Err? { return Err(Unavailable); }
      assert Subs(w.sys.store, i.id)[n].txHash == HashOf(tx);
      return Ok(tx);
    }

    lemma HashIsRecorded(r: Records, id: ID, tx: Tx)
      requires HasHash(Subs(r, id), HashOf(tx))
      ensures Recorded(r, tx)
    {
      assert id in r.subs;
    }

    lemma FeesUnsigned(subs: seq<Submission>, a: Submission, b: Submission)
      requires FeeRule(subs, a) && b == a.(txHash := b.txHash)
      ensures FeeRule(subs, b)
    {
    }

    /** The first attempt is at a market's fees and the policy's gas; from then on the
        last attempt is reproduced exactly, to the target recorded with it, and nothing
        is recorded. A settled intent is left alone. */
    method Send(id: ID) returns (r: Result<Hash>)
      requires w.Valid()
      modifies w
      ensures w.Valid() && Extends(old(w.Now()), w.Now()) && OnlyAttempted(w.g, old(w.sys), w.sys, id)
      ensures Failing(r, old(w.failures), w.failures)
      ensures |w.heard| <= |old(w.heard)| + 1
      ensures Subs(old(w.sys).store, id) != [] ==> w.sys.store == old(w.sys).store && w.heard == old(w.heard)
      ensures id in old(w.sys).store.facts ==>
                w.sys.store == old(w.sys).store && w.sys.chain.ours == old(w.sys).chain.ours
      ensures r.Ok? ==> id in w.sys.store.intents
                        && (if id in w.sys.store.facts then r.value == ZeroHash
                            else Launched(w.sys, id, r.value))
      ensures r.Ok? && id !in w.sys.store.facts && Subs(old(w.sys).store, id) == [] ==>
                FirstAttempt(cfg.policy, w.sys, id, old(w.Now()), w.Now())
      ensures r.Ok? && id !in w.sys.store.facts && Subs(old(w.sys).store, id) != [] ==>
                r.value == Subs(w.sys.store, id)[|Subs(w.sys.store, id)| - 1].txHash
      ensures r.Err? ==> r.error == Unavailable || (r.error == NoIntent && id !in w.sys.store.intents)
    {
      hide Run, Inv, Later, Launched, Escalating, HasHash, AtMarket, FirstAttempt, OnlyAttempted;
      var found := Unresolved(id);
      NotAttempted(w.g, old(w.sys), w.sys, id);
      var live :- found;
      if live.None? { return Ok(ZeroHash); }
      var i := live.value;
      var recorded := w.Submissions(id);
      NotAttempted(w.g, old(w.sys), w.sys, id);
      var subs :- recorded;
      ghost var looked := w.sys;
      if |subs| > 0 {
        LastAttempt(id);
        r := Submit(i, subs[|subs| - 1]);
        LookedThenAttempted(w.g, old(w.sys), looked, w.sys, id);
        return;
      }
      ghost var mid := w.Now();
      r := SendFirst(i);
      LookedThenAttempted(w.g, old(w.sys), looked, w.sys, id);
      if r.Ok? { FirstStays(cfg.policy, w.sys, id, old(w.Now()), mid, w.Now()); }
    }

    /** The first attempt at an intent, at a market's fees and the policy's gas. */
    method SendFirst(i: Intent) returns (r: Result<Hash>)
      requires w.Valid() && i.id in w.sys.store.intents && w.sys.store.intents[i.id] == i && Fresh(w.sys, i.id)
      modifies w
      ensures w.Valid() && Extends(old(w.Now()), w.Now()) && OnlyAttempted(w.g, old(w.sys), w.sys, i.id)
      ensures Failing(r, old(w.failures), w.failures)
      ensures |w.heard| <= |old(w.heard)| + 1
      ensures r.Ok? ==> Launched(w.sys, i.id, r.value)
                        && FirstAttempt(cfg.policy, w.sys, i.id, old(w.Now()), w.Now())
      ensures r.Err? ==> r.error == Unavailable
    {
      hide Run, Inv, Later, Launched, Escalating, HasHash, AtMarket, FirstAttempt, OnlyAttempted, Resend;
      ghost var start := w.Now();
      var market := Fees();
      NotAttempted(w.g, old(w.sys), w.sys, i.id);
      var fees :- market;
      ghost var looked, seen := w.sys, w.Now();
      r := SubmitFirst(i, fees, start, seen);
      LookedThenAttempted(w.g, old(w.sys), looked, w.sys, i.id);
    }

    /** The first attempt at an intent at terms that were a market's between two earlier
        moments. */
    method SubmitFirst(i: Intent, m: Terms, ghost start: Moment, ghost priced: Moment) returns (r: Result<Hash>)
      requires w.Valid() && i.id in w.sys.store.intents && w.sys.store.intents[i.id] == i && Fresh(w.sys, i.id)
      requires AtMarket(start, priced, m) && Extends(priced, w.Now())
      modifies w`sys, w`trace, w`failures
      ensures w.Valid() && old(w.trace) <= w.trace && OnlyAttempted(w.g, old(w.sys), w.sys, i.id)
      ensures Failing(r, old(w.failures), w.failures)
      ensures AttemptedAt(w.sys, i.id, m, cfg.policy.GasLimit(i.kind))
      ensures r.Ok? ==> Launched(w.sys, i.id, r.value) && FirstAttempt(cfg.policy, w.sys, i.id, start, w.Now())
      ensures r.Err? ==> r.error == Unavailable
    {
      hide Run, Inv, Later, Launched, Escalating, HasHash, AtMarket, FirstAttempt, OnlyAttempted, Resend;
      CapAboveTip(start, priced, m);
      r := Submit(i, Submission(ZeroHash, cfg.policy.GasLimit(i.kind), m.tip, m.feeCap));
      StillThere(w.g, old(w.sys), w.sys, i.id);
      if r.Ok? { AttemptedFirst(cfg.policy, w.sys, i.id, m, start, start, priced, w.Now()); }
    }

    lemma LastAttempt(id: ID)
      requires w.Valid() && id in w.sys.store.intents && Subs(w.sys.store, id) != []
      ensures var subs := Subs(w.sys.store, id);
              var last := subs[|subs| - 1];
              Escalating(subs) && Resend(w.g, w.sys, w.sys.store.intents[id], last)
    {
      w.Sound();
      HasItsId(id);
      assert AttemptsOf(w.g, w.sys.store.intents[id], Subs(w.sys.store, id));
    }

    /** Exactly one attempt is recorded, under the same nonce and terms: the cheapest
        that pays a market's fees and is an eighth dearer than the last. */
    method Retry(id: ID) returns (r: Result<Hash>)
      requires w.Valid()
      modifies w
      ensures w.Valid() && Extends(old(w.Now()), w.Now()) && OnlyAttempted(w.g, old(w.sys), w.sys, id)
      ensures Failing(r, old(w.failures), w.failures)
      ensures |w.heard| <= |old(w.heard)| + 1
      ensures r.Ok? && id in old(w.sys).store.facts ==> r.value == ZeroHash && w.sys.store == old(w.sys).store
      ensures r.Ok? && id !in old(w.sys).store.facts ==>
                var before, after := Subs(old(w.sys).store, id), Subs(w.sys.store, id);
                && |after| == |before| + 1 && after[|before|].txHash == r.value && FeeRule(before, after[|before|])
                && Launched(w.sys, id, r.value)
                && id in w.sys.store.intents && Escalating(before)
                && exists m :: AtMarket(old(w.Now()), w.Now(), m) && 0 < m.tip <= m.feeCap
                     && after[|before|].(txHash := ZeroHash)
                        == RetryAttempt(before, cfg.policy.GasLimit(w.sys.store.intents[id].kind), m.tip, m.feeCap)
      ensures r.Err? ==> r.error == Unavailable || (r.error == NoIntent && id !in w.sys.store.intents)
    {
      hide Run, Inv, Later, Launched, HasHash, AtMarket, OnlyAttempted, Escalating, FeeRule, Resend, RetryAttempt;
      var found := Unresolved(id);
      NotAttempted(w.g, old(w.sys), w.sys, id);
      var live :- found;
      if live.None? { return Ok(ZeroHash); }
      var recorded := w.Submissions(id);
      NotAttempted(w.g, old(w.sys), w.sys, id);
      var subs :- recorded;
      ghost var looked, mid := w.sys, w.Now();
      r := RetryNow(live.value, subs);
      LookedThenAttempted(w.g, old(w.sys), looked, w.sys, id);
      if r.Ok? {
        ghost var m :| AtMarket(mid, w.Now(), m) && 0 < m.tip <= m.feeCap
          && Subs(w.sys.store, id)[|subs|].(txHash := ZeroHash)
             == RetryAttempt(subs, cfg.policy.GasLimit(live.value.kind), m.tip, m.feeCap);
        MarketStays(old(w.Now()), mid, w.Now(), w.Now(), m);
      }
    }

    /** The retry itself, of an unresolved operation whose attempts were read. */
    method RetryNow(i: Intent, subs: seq<Submission>) returns (r: Result<Hash>)
      requires w.Valid() && i.id in w.sys.store.intents && w.sys.store.intents[i.id] == i
      requires i.id !in w.sys.store.facts && subs == Subs(w.sys.store, i.id)
      modifies w
      ensures w.Valid() && Extends(old(w.Now()), w.Now()) && OnlyAttempted(w.g, old(w.sys), w.sys, i.id)
      ensures Failing(r, old(w.failures), w.failures)
      ensures |w.heard| <= |old(w.heard)| + 1
      ensures r.Ok? ==>
                var after := Subs(w.sys.store, i.id);
                && |after| == |subs| + 1 && after[|subs|].txHash == r.value && FeeRule(subs, after[|subs|])
                && Launched(w.sys, i.id, r.value) && Escalating(subs)
                && exists m :: AtMarket(old(w.Now()), w.Now(), m) && 0 < m.tip <= m.feeCap
                     && after[|subs|].(txHash := ZeroHash)
                        == RetryAttempt(subs, cfg.policy.GasLimit(i.kind), m.tip, m.feeCap)
      ensures r.Err? ==> r.error == Unavailable
    {
      hide Run, Inv, Later, Launched, HasHash, AtMarket, OnlyAttempted, Escalating, FeeRule, Resend, RetryAttempt;
      var market := Fees();
      NotAttempted(w.g, old(w.sys), w.sys, i.id);
      var fees :- market;
      ghost var looked, seen := w.sys, w.Now();
      AttemptsEscalate(i.id);
      var next := RetryAttempt(subs, cfg.policy.GasLimit(i.kind), fees.tip, fees.feeCap);
      r := Submit(i, next);
      LookedThenAttempted(w.g, old(w.sys), looked, w.sys, i.id);
      MarketStays(old(w.Now()), old(w.Now()), seen, w.Now(), fees);
      if r.Ok? {
        FeesUnsigned(subs, next, next.(txHash := r.value));
        assert Subs(w.sys.store, i.id)[|subs|].(txHash := ZeroHash) == next;
      }
    }

    lemma AttemptsEscalate(id: ID)
      requires w.Valid() && id in w.sys.store.intents
      ensures Escalating(Subs(w.sys.store, id))
    {
      if Subs(w.sys.store, id) != [] { LastAttempt(id); }
    }

    /** Either the policy said execute on what was read, and exactly the asked intent is
        recorded; or no intent, attempt or broadcast is new, and a shortage is what the
        policy decided. Asked again with the same terms, nothing happens. */
    method Prepare(id: ID, kind: Kind, to: Address, amount: int) returns (r: Result<()>)
      requires w.Valid()
      modifies this, w
      ensures w.Valid() && Extends(old(w.Now()), w.Now()) && |w.heard| <= |old(w.heard)| + 1
      ensures Failing(r, old(w.failures), w.failures)
      ensures OnlyLooked(old(w.sys), w.sys)
              || (OnlyBegan(old(w.sys), w.sys, id) && Fresh(w.sys, id) && w.sys.chain.ours == old(w.sys).chain.ours
                  && IsPayment(w.sys.store.intents[id], kind, to, amount)
                  && GoAhead(cfg.policy, old(w.Now()), w.Now(), amount, w.sys.store.intents[id].fromBlock)
                  && Rehearsed(w.g, cfg.policy, old(w.Now()), w.Now(), w.sys.store.intents[id]))
      ensures r.Ok? ==> id in w.sys.store.intents && IsPayment(w.sys.store.intents[id], kind, to, amount)
      ensures r.Err? && r.error != Unavailable ==> OnlyLooked(old(w.sys), w.sys)
      ensures r.Err? ==> Explained(cfg.policy, old(w.Now()), w.Now(), amount, r.error)
      ensures kind.Refill? || to == ZERO_ADDRESS || amount <= 0 ==> r == Err(BadInput) && w.Now() == old(w.Now())
      ensures r == Err(BadInput) ==> kind.Refill? || to == ZERO_ADDRESS || !(0 < amount < UINT256_LIMIT)
      ensures id in old(w.sys).store.intents ==>
                OnlyLooked(old(w.sys), w.sys) && w.heard == old(w.heard)
                && (r.Ok? ==> IsPayment(old(w.sys).store.intents[id], kind, to, amount))
                && (r.Err? ==> r.error in {Unavailable, BadInput, IntentConflict})
                && (r == Err(IntentConflict) ==> !IsPayment(old(w.sys).store.intents[id], kind, to, amount))
      ensures Runway.Keeps(cfg.policy, old(w.trace), w.trace)
      ensures r.Err? ==> Barred(w.g, old(w.Now()), w.Now(), r.error)
      ensures r.Err? ==> r.error in {Unavailable, BadInput, WrongDomain, InFlight, Unreconciled, SimulationFailed,
                                     InsufficientStablecoin, InsufficientNative, FeesAboveBound, NeedRefill,
                                     IntentConflict}
      ensures SoleSigner(w.sys) ==> r != Err(Unreconciled)
    {
      hide Run, Inv, Later, OnlyBegan, GoAhead, Rehearsed, Fresh, Runway.Followed;
      if kind.Refill? || to == ZERO_ADDRESS || amount <= 0 { return Err(BadInput); }
      var found := w.Intent(id);
      LookingFollows(w.g, cfg.policy, old(w.trace), w.trace);
      var known :- found;
      if known.Some? {
        var i := known.value;
        return if i.kind == kind && i.to == to && i.amount == amount then Ok(()) else Err(IntentConflict);
      }
      ghost var looked, mid := w.sys, w.Now();
      r := PrepareNew(id, kind, to, amount);
      KeepsOn(cfg.policy, old(w.trace), mid.trace, w.trace);
      if OnlyBegan(looked, w.sys, id) {
        LookedThenBegan(old(w.sys), looked, w.sys, id);
        GoAheadStays(cfg.policy, old(w.Now()), mid, w.Now(), w.Now(), amount, w.sys.store.intents[id].fromBlock);
        RehearsedStays(w.g, cfg.policy, old(w.Now()), mid, w.Now(), w.Now(), w.sys.store.intents[id]);
      }
      if r.Err? {
        ExplainedStays(cfg.policy, old(w.Now()), mid, w.Now(), amount, r.error);
        BarredStays(w.g, old(w.Now()), mid, w.Now(), r.error);
      }
    }

    /** An unrecorded payment is judged and recorded, or refused for what the policy
        decided. */
    method PrepareNew(id: ID, kind: Kind, to: Address, amount: int) returns (r: Result<()>)
      requires w.Valid() && !kind.Refill? && id !in w.sys.store.intents
      modifies this, w
      ensures w.Valid() && Extends(old(w.Now()), w.Now()) && |w.heard| <= |old(w.heard)| + 1
      ensures Failing(r, old(w.failures), w.failures)
      ensures OnlyLooked(old(w.sys), w.sys)
              || (OnlyBegan(old(w.sys), w.sys, id) && Fresh(w.sys, id) && w.sys.chain.ours == old(w.sys).chain.ours
                  && IsPayment(w.sys.store.intents[id], kind, to, amount)
                  && GoAhead(cfg.policy, old(w.Now()), w.Now(), amount, w.sys.store.intents[id].fromBlock)
                  && Rehearsed(w.g, cfg.policy, old(w.Now()), w.Now(), w.sys.store.intents[id]))
      ensures r.Ok? ==> id in w.sys.store.intents && IsPayment(w.sys.store.intents[id], kind, to, amount)
      ensures r.Err? && r.error != Unavailable ==> OnlyLooked(old(w.sys), w.sys)
      ensures r.Err? ==> Explained(cfg.policy, old(w.Now()), w.Now(), amount, r.error)
      ensures r == Err(BadInput) ==> to == ZERO_ADDRESS || !(0 < amount < UINT256_LIMIT)
      ensures Runway.Keeps(cfg.policy, old(w.trace), w.trace)
      ensures r.Err? ==> Barred(w.g, old(w.Now()), w.Now(), r.error)
      ensures r.Err? ==> r.error in {Unavailable, BadInput, WrongDomain, InFlight, Unreconciled, SimulationFailed,
                                     InsufficientStablecoin, InsufficientNative, FeesAboveBound, NeedRefill}
    {
      hide Run, Inv, Later, Ready, OnlyLooked, OnlyBegan, GoAhead, Decided, Rehearsed, Checked, Fresh, Intruded, Heard,
          Runway.Keeps, Orphaned, SoleSigner, CaughtUp;
      ghost var start, begun := w.sys, w.Now();
      var readied := BecomeReady();
      LookingFollows(w.g, cfg.policy, begun.trace, w.trace);
      var _ :- readied;
      ghost var ready, mid := w.sys, w.Now();
      LookedTwice(start, ready, ready);
      r := PrepareNow(id, kind, to, amount);
      KeepsOn(cfg.policy, begun.trace, mid.trace, w.trace);
      LookedTwice(start, ready, w.sys);
      if !OnlyLooked(ready, w.sys) {
        LookedThenBegan(start, ready, w.sys, id);
        GoAheadStays(cfg.policy, begun, mid, w.Now(), w.Now(), amount, w.sys.store.intents[id].fromBlock);
        RehearsedStays(w.g, cfg.policy, begun, mid, w.Now(), w.Now(), w.sys.store.intents[id]);
      }
      if r.Err? {
        ExplainedStays(cfg.policy, begun, mid, w.Now(), amount, r.error);
        BarredStays(w.g, begun, mid, w.Now(), r.error);
      }
    }

    /** The same once everything recorded has settled. */
    method PrepareNow(id: ID, kind: Kind, to: Address, amount: int) returns (r: Result<()>)
      requires w.Valid() && Ready(w.sys) && !kind.Refill? && id !in w.sys.store.intents
      modifies w
      ensures w.Valid() && Extends(old(w.Now()), w.Now()) && |w.heard| <= |old(w.heard)| + 1
      ensures Failing(r, old(w.failures), w.failures)
      ensures OnlyLooked(old(w.sys), w.sys)
              || (OnlyBegan(old(w.sys), w.sys, id) && Fresh(w.sys, id) && w.sys.chain.ours == old(w.sys).chain.ours
                  && IsPayment(w.sys.store.intents[id], kind, to, amount)
                  && GoAhead(cfg.policy, old(w.Now()), w.Now(), amount, w.sys.store.intents[id].fromBlock)
                  && Rehearsed(w.g, cfg.policy, old(w.Now()), w.Now(), w.sys.store.intents[id]))
      ensures r.Ok? ==> id in w.sys.store.intents && IsPayment(w.sys.store.intents[id], kind, to, amount)
      ensures r.Err? && r.error != Unavailable ==> OnlyLooked(old(w.sys), w.sys)
      ensures r.Err? ==> Explained(cfg.policy, old(w.Now()), w.Now(), amount, r.error)
      ensures r == Err(BadInput) ==> to == ZERO_ADDRESS || !(0 < amount < UINT256_LIMIT)
      ensures Runway.Keeps(cfg.policy, old(w.trace), w.trace)
      ensures r.Err? ==> Barred(w.g, old(w.Now()), w.Now(), r.error)
      ensures r.Err? ==> r.error in {Unavailable, BadInput, WrongDomain, InFlight, Unreconciled, SimulationFailed,
                                     InsufficientStablecoin, InsufficientNative, FeesAboveBound, NeedRefill}
    {
      hide Run, Inv, Later, Ready, OnlyLooked, OnlyBegan, GoAhead, Decided, Rehearsed, Checked, Fresh, Intruded, Heard,
          Runway.Keeps, SoleSigner, CaughtUp, Gas.Decide;
      ghost var start, mid := w.sys, w.Now();
      StaysLooking(start);
      var verdict := Judge(amount);
      ghost var looked, seen := w.sys, w.Now();
      LookingFollows(w.g, cfg.policy, mid.trace, w.trace);
      LookedTwice(start, looked, looked);
      if verdict.Err? { return Err(verdict.error); }
      StaysReady(start, looked);
      r := Record(id, kind, to, amount, verdict.value);
      LookedTwice(start, looked, w.sys);
      PaymentFollows(w.g, cfg.policy, mid.trace, mid, seen, w.trace, id, amount, verdict.value);
      GoAheadStays(cfg.policy, mid, mid, seen, w.Now(), amount, verdict.value);
      if OnlyBegan(looked, w.sys, id) { LookedThenBegan(start, looked, w.sys, id); }
      if !OnlyLooked(looked, w.sys) {
        RehearsedStays(w.g, cfg.policy, mid, seen, w.Now(), w.Now(), w.sys.store.intents[id]);
      }
      if r.Err? { BarredStays(w.g, mid, seen, w.Now(), r.error); }
    }

    /** Goes ahead, with the latest head, when the policy decides to execute on what is
        read now; otherwise the error says what it decided. */
    method Judge(amount: int) returns (r: Result<nat>)
      requires w.Valid()
      modifies w
      ensures w.Valid() && Extends(old(w.Now()), w.Now()) && |w.heard| <= |old(w.heard)| + 1
      ensures Failing(r, old(w.failures), w.failures)
      ensures OnlyLooked(old(w.sys), w.sys) && w.sys.store == old(w.sys).store
      ensures Spent(old(w.sys).chain) <= Spent(w.sys.chain)
      ensures r.Ok? ==> GoAhead(cfg.policy, old(w.Now()), w.Now(), amount, r.value)
      ensures r.Err? ==> Explained(cfg.policy, old(w.Now()), w.Now(), amount, r.error)
      ensures r.Err? ==> r.error in {Unavailable, InsufficientStablecoin, InsufficientNative, FeesAboveBound,
                                     NeedRefill}
    {
      hide Run, Inv, Later, Saw, AtMarket, Gas.WithSlippage;
      var read :- Purse();
      assert WasRead(cfg.policy, old(w.Now()), w.Now(), amount, read);
      var d := Gas.Decide(cfg.policy, Seen(cfg.policy, read, amount));
      assert Decided(cfg.policy, old(w.Now()), w.Now(), amount, d);
      match d {
        case Wait(reason) => return Err(Gas.ReasonError(reason));
        case Quote(_) => return Err(NeedRefill);
        case Buy(_, _) => return Err(NeedRefill);
        case Execute => return Ok(read.at.head);
      }
    }

    /** The fees of a market and then the two balances, unquoted. */
    method Purse() returns (r: Result<Reading>)
      requires w.Valid()
      modifies w
      ensures w.Valid() && Extends(old(w.Now()), w.Now()) && |w.heard| <= |old(w.heard)| + 1
      ensures Failing(r, old(w.failures), w.failures)
      ensures OnlyLooked(old(w.sys), w.sys) && w.sys.store == old(w.sys).store
      ensures Spent(old(w.sys).chain) <= Spent(w.sys.chain)
      ensures r.Ok? ==>
                && AtMarket(old(w.Now()), w.Now(), r.value.at) && 0 < r.value.at.tip <= r.value.at.feeCap
                && Saw(old(w.Now()), w.Now(), r.value.token, r.value.gas) && r.value.quote.None?
      ensures r.Err? ==> r.error == Unavailable
    {
      hide Run, Inv, Later, Saw, AtMarket;
      var fees :- Fees();
      ghost var priced := w.Now();
      var read :- PolicyInput(fees);
      MarketStays(old(w.Now()), old(w.Now()), priced, w.Now(), fees);
      SawStays(old(w.Now()), priced, w.Now(), w.Now(), read.token, read.gas);
      return Ok(read);
    }

    /** A withdrawal of what was the whole balance at some moment of the call is recorded
        and sent, at a market's fees that the native balance covered; the reserve policy
        has no say. On an identifier already recorded it is always refused, and neither
        records, attempts nor broadcasts anything. */
    method WithdrawAll(id: ID, to: Address) returns (r: Result<Hash>)
      requires w.Valid()
      modifies this, w
      ensures w.Valid() && Extends(old(w.Now()), w.Now()) && |w.heard| <= |old(w.heard)| + 1
      ensures Failing(r, old(w.failures), w.failures)
      ensures OnlyLooked(old(w.sys), w.sys)
              || (OnlyBegan(old(w.sys), w.sys, id)
                  && exists read :: Left(w.g, cfg.policy, old(w.Now()), w.Now(), w.sys, id, to, read))
      ensures to == ZERO_ADDRESS ==> r == Err(BadInput) && w.Now() == old(w.Now())
      ensures id in old(w.sys).store.intents ==> r.Err? && OnlyLooked(old(w.sys), w.sys)
      ensures r.Ok? ==> OnlyBegan(old(w.sys), w.sys, id) && Launched(w.sys, id, r.value)
                        && FirstAttempt(cfg.policy, w.sys, id, old(w.Now()), w.Now())
      ensures r.Err? && r.error != Unavailable ==> OnlyLooked(old(w.sys), w.sys)
      ensures r == Err(IntentConflict) ==> id in old(w.sys).store.intents
      ensures r == Err(BadInput) || r == Err(InsufficientNative) ==>
                (r.error.BadInput? && to == ZERO_ADDRESS)
                || CannotLeave(cfg.policy, old(w.Now()), w.Now(), r.error)
      ensures r.Err? ==> Barred(w.g, old(w.Now()), w.Now(), r.error)
      ensures r.Err? ==> r.error in {Unavailable, BadInput, WrongDomain, InFlight, Unreconciled, SimulationFailed,
                                     InsufficientNative, IntentConflict}
      ensures SoleSigner(w.sys) ==> r != Err(Unreconciled)
    {
      hide Run, Inv, Later, Ready, OnlyLooked, OnlyBegan, Left, Saw, AtMarket, FirstAttempt, CannotLeave, Launched,
          Rehearsed, AttemptedAt, Checked, Orphaned, IsPayment;
      ghost var start, begun := w.sys, w.Now();
      StaysLooking(start);
      if to == ZERO_ADDRESS { return Err(BadInput); }
      var _ :- BecomeReady();
      ghost var ready, mid := w.sys, w.Now();
      var purse := Purse();
      ghost var looked, seen := w.sys, w.Now();
      LookedTwice(start, ready, looked);
      var read :- purse;
      LeavesAll(cfg.policy, begun, mid, seen, seen, read);
      if read.token <= 0 { return Err(BadInput); }
      if read.gas < read.at.feeCap * cfg.policy.GasLimit(Kind.Withdraw) { return Err(InsufficientNative); }
      StaysReady(ready, w.sys);
      r := Leave(id, to, read.token, read.at, mid, seen);
      Withdrawn(w.g, cfg.policy, start, looked, w.sys, begun, mid, seen, w.Now(), id, to, read);
      if r.Err? { BarredStays(w.g, begun, seen, w.Now(), r.error); }
      if r.Ok? { FirstStays(cfg.policy, w.sys, id, begun, mid, w.Now()); }
    }

    /** A withdrawal of this amount is recorded and gets its first attempt, at fees that
        were a market's between two earlier moments. */
    method Leave(id: ID, to: Address, amount: int, fees: Terms, ghost start: Moment,
                 ghost priced: Moment)
      returns (r: Result<Hash>)
      requires w.Valid() && Ready(w.sys) && AtMarket(start, priced, fees) && Extends(priced, w.Now())
      modifies w`sys, w`trace, w`checks, w`failures
      ensures w.Valid() && old(w.trace) <= w.trace && old(w.checks) <= w.checks
      ensures Failing(r, old(w.failures), w.failures)
      ensures OnlyLooked(old(w.sys), w.sys)
              || (OnlyBegan(old(w.sys), w.sys, id) && IsPayment(w.sys.store.intents[id], Withdraw, to, amount)
                  && w.sys.store.intents[id].fromBlock == fees.head
                  && AttemptedAt(w.sys, id, fees, cfg.policy.GasLimit(Kind.Withdraw))
                  && Rehearsed(w.g, cfg.policy, old(w.Now()), w.Now(), w.sys.store.intents[id]))
      ensures r.Ok? ==> OnlyBegan(old(w.sys), w.sys, id) && Launched(w.sys, id, r.value)
                        && FirstAttempt(cfg.policy, w.sys, id, start, w.Now())
      ensures r.Err? && r.error != Unavailable ==> OnlyLooked(old(w.sys), w.sys)
      ensures r == Err(IntentConflict) ==> id in old(w.sys).store.intents
      ensures r == Err(BadInput) ==> to == ZERO_ADDRESS || !(0 < amount < UINT256_LIMIT)
      ensures r.Err? ==> r.error in {Unavailable, SimulationFailed, Unreconciled, BadInput, IntentConflict}
      ensures r.Err? ==> Barred(w.g, old(w.Now()), w.Now(), r.error)
    {
      hide Run, Inv, Later, Escalating, Ready, AtMarket, Launched, FirstAttempt, OnlyAttempted, OnlyLooked, AttemptedAt,
          Checked, CaughtUp, Rehearsed, Intruded;
      ghost var begun, before := w.Now(), w.sys;
      var put := Record(id, Kind.Withdraw, to, amount, fees.head);
      ghost var written, seen := w.sys, w.Now();
      NoAttempts(w.sys, id, fees, cfg.policy.GasLimit(Kind.Withdraw));
      var _ :- put;
      BeganIsNew(before, written, id);
      var found := w.Intent(id);
      NoAttempts(w.sys, id, fees, cfg.policy.GasLimit(Kind.Withdraw));
      BeganThenQuiet(w.g, before, written, w.sys, id);
      RehearsedStays(w.g, cfg.policy, begun, begun, seen, w.Now(), written.store.intents[id]);
      var i :- found;
      HasItsId(id);
      ghost var recorded := w.sys;
      r := SubmitFirst(i.value, fees, start, priced);
      BeganThenAttempted(w.g, before, recorded, w.sys, id);
      RehearsedStays(w.g, cfg.policy, begun, begun, seen, w.Now(), written.store.intents[id]);
    }

    /** At most one operation begins: a refill decided on what was read, leaving the
        reserved payment affordable, whose attempt costs no more than the fee bound.
        Otherwise nothing does, and the refusal is what the policy decided. */
    method Refill(reserve: int) returns (r: Result<(ID, Hash)>)
      requires w.Valid()
      modifies this, w
      ensures w.Valid() && Extends(old(w.Now()), w.Now()) && |w.heard| <= |old(w.heard)| + 2
      ensures Failing(r, old(w.failures), w.failures)
      ensures forall n :: |old(w.heard)| < n < |w.heard| ==> w.heard[n].Quoted?
      ensures OnlyLooked(old(w.sys), w.sys)
              || exists id :: Bought(w.g, cfg, old(w.sys), w.sys, old(w.Now()), w.Now(), id, reserve)
      ensures r.Ok? ==> Bought(w.g, cfg, old(w.sys), w.sys, old(w.Now()), w.Now(), r.value.0, reserve)
                        && Launched(w.sys, r.value.0, r.value.1)
                        && FirstAttempt(cfg.policy, w.sys, r.value.0, old(w.Now()), w.Now())
      ensures r.Err? && r.error != Unavailable ==> OnlyLooked(old(w.sys), w.sys)
      ensures r.Err? ==> Explained(cfg.policy, old(w.Now()), w.Now(), reserve, r.error)
      ensures Runway.Keeps(cfg.policy, old(w.trace), w.trace)
      ensures r.Err? ==> Barred(w.g, old(w.Now()), w.Now(), r.error)
      ensures r.Err? ==> r.error in {Unavailable, BadInput, WrongDomain, InFlight, Unreconciled, SimulationFailed,
                                     InsufficientStablecoin, InsufficientNative, FeesAboveBound, NoRefillNeeded,
                                     IntentConflict}
      ensures SoleSigner(w.sys) ==> r != Err(Unreconciled)
    {
      hide Run, Inv, Later, OnlyLooked, Runway.Keeps, Orphaned, SoleSigner, Intruded, Heard, Ready, Bought, Decided,
          Launched, FirstAttempt;
      ghost var start, begun := w.sys, w.Now();
      var readied := BecomeReady();
      LookingFollows(w.g, cfg.policy, begun.trace, w.trace);
      var _ :- readied;
      ghost var ready, mid := w.sys, w.Now();
      r := RefillNow(reserve);
      KeepsOn(cfg.policy, begun.trace, mid.trace, w.trace);
      LookedTwice(start, ready, w.sys);
      forall id | Bought(w.g, cfg, ready, w.sys, mid, w.Now(), id, reserve)
        ensures Bought(w.g, cfg, start, w.sys, begun, w.Now(), id, reserve)
      {
        LookedThenBought(w.g, cfg, start, ready, w.sys, begun, mid, w.Now(), id, reserve);
      }
      if r.Err? {
        ExplainedStays(cfg.policy, begun, mid, w.Now(), reserve, r.error);
        BarredStays(w.g, begun, mid, w.Now(), r.error);
      } else {
        FirstStays(cfg.policy, w.sys, r.value.0, begun, mid, w.Now());
      }
    }

    /** The refill itself, once everything recorded has settled. */
    method RefillNow(reserve: int) returns (r: Result<(ID, Hash)>)
      requires w.Valid() && Ready(w.sys)
      modifies w
      ensures w.Valid() && Extends(old(w.Now()), w.Now()) && |w.heard| <= |old(w.heard)| + 2
      ensures Failing(r, old(w.failures), w.failures)
      ensures forall n :: |old(w.heard)| < n < |w.heard| ==> w.heard[n].Quoted?
      ensures OnlyLooked(old(w.sys), w.sys)
              || exists id :: Bought(w.g, cfg, old(w.sys), w.sys, old(w.Now()), w.Now(), id, reserve)
      ensures r.Ok? ==> Bought(w.g, cfg, old(w.sys), w.sys, old(w.Now()), w.Now(), r.value.0, reserve)
                        && Launched(w.sys, r.value.0, r.value.1)
                        && FirstAttempt(cfg.policy, w.sys, r.value.0, old(w.Now()), w.Now())
      ensures r.Err? && r.error != Unavailable ==> OnlyLooked(old(w.sys), w.sys)
      ensures r.Err? ==> Explained(cfg.policy, old(w.Now()), w.Now(), reserve, r.error)
      ensures Runway.Keeps(cfg.policy, old(w.trace), w.trace)
      ensures r.Err? ==> Barred(w.g, old(w.Now()), w.Now(), r.error)
      ensures r.Err? ==> r.error in {Unavailable, BadInput, WrongDomain, InFlight, Unreconciled, SimulationFailed,
                                     InsufficientStablecoin, InsufficientNative, FeesAboveBound, NoRefillNeeded,
                                     IntentConflict}
      ensures SoleSigner(w.sys) ==> r != Err(Unreconciled)
    {
      hide Run, Inv, Later, OnlyLooked, Runway.Keeps, Orphaned, SoleSigner, Intruded, Heard, Ready, BeganRefill,
          SomeRefill, Bought, Decided, WasRead, AttemptedAt, Launched, FirstAttempt, AtMarket, Gas.Decide;
      ghost var start, mid := w.sys, w.Now();
      StaysLooking(start);
      var market := Fees();
      LookingFollows(w.g, cfg.policy, mid.trace, w.trace);
      var fees :- market;
      ghost var polled, priced := w.sys, w.Now();
      var size := Size(fees, reserve, mid);
      ghost var looked, seen := w.sys, w.Now();
      LookedTwice(start, polled, looked);
      LookingFollows(w.g, cfg.policy, mid.trace, w.trace);
      if size.Err? { return Err(size.error); }
      var (delta, maxInput, read) := size.value;
      StaysReady(start, looked);
      r := BuyGas(delta, maxInput, fees, mid, priced);
      RefillFollows(w.g, cfg, mid, mid, seen, w.Now(), reserve, read, delta, maxInput);
      if r.Ok? {
        BoughtBy(w.g, cfg, start, looked, w.sys, mid, mid, seen, w.Now(), r.value.0, reserve, read, maxInput, delta);
      } else {
        LookedTwice(start, looked, w.sys);
        BarredStays(w.g, mid, seen, w.Now(), r.error);
      }
    }

    /** How much a refill should buy and the most it may spend, decided on the venue's
        quote for that size, at fees that have just been read. */
    method Size(at: Terms, reserve: int, ghost start: Moment)
      returns (r: Result<(int, int, Reading)>)
      requires w.Valid() && AtMarket(start, w.Now(), at) && Extends(start, w.Now())
      modifies w
      ensures w.Valid() && Extends(old(w.Now()), w.Now()) && |w.heard| <= |old(w.heard)| + 1
      ensures Failing(r, old(w.failures), w.failures)
      ensures forall n :: |old(w.heard)| <= n < |w.heard| ==> w.heard[n].Quoted?
      ensures OnlyLooked(old(w.sys), w.sys) && w.sys.store == old(w.sys).store
      ensures Spent(old(w.sys).chain) <= Spent(w.sys.chain)
      ensures r.Ok? ==> var (delta, maxInput, read) := r.value;
                        && WasRead(cfg.policy, start, w.Now(), reserve, read) && read.at == at && read.quote.Some?
                        && Gas.Decide(cfg.policy, Seen(cfg.policy, read, reserve)) == Gas.Buy(delta, maxInput)
      ensures r.Err? ==> Explained(cfg.policy, start, w.Now(), reserve, r.error)
      ensures r.Err? ==> r.error in {Unavailable, InsufficientStablecoin, InsufficientNative, FeesAboveBound,
                                     NoRefillNeeded}
    {
      hide Run, Inv, Later, Saw, AtMarket, Gas.WithSlippage;
      ghost var begun := w.Now();
      var read :- PolicyInput(at);
      ghost var balances := w.Now();
      var d := Gas.Decide(cfg.policy, Seen(cfg.policy, read, reserve));
      MarketStays(start, start, begun, balances, at);
      SawStays(start, begun, balances, balances, read.token, read.gas);
      assert WasRead(cfg.policy, start, balances, reserve, read);
      if d.Execute? { return Err(NoRefillNeeded); }
      if d.Quote? {
        var quote :- w.QuoteRefill(d.delta);
        ghost var unquoted := read;
        read := read.(quote := Some(quote));
        assert read.(quote := None) == unquoted;
        MarketStays(start, start, begun, w.Now(), at);
        SawStays(start, begun, balances, w.Now(), read.token, read.gas);
        assert w.heard[|old(w.heard)|] == Quoted(d.delta, quote);
        assert Heard(start.heard, w.heard, Quoted(d.delta, quote));
        d := Gas.Decide(cfg.policy, Seen(cfg.policy, read, reserve));
        assert WasRead(cfg.policy, start, w.Now(), reserve, read);
      }
      if d.Wait? { return Err(Gas.ReasonError(d.reason)); }
      return Ok((d.delta, d.maxInput, read));
    }

    /** A refill of this size is recorded and gets its first attempt, at fees that were a
        market's between two earlier moments. */
    method BuyGas(delta: int, maxInput: int, fees: Terms, ghost start: Moment, ghost priced: Moment)
      returns (r: Result<(ID, Hash)>)
      requires w.Valid() && Ready(w.sys) && AtMarket(start, priced, fees) && Extends(priced, w.Now())
      modifies w`sys, w`trace, w`checks, w`failures
      ensures w.Valid() && old(w.trace) <= w.trace && old(w.checks) <= w.checks
      ensures Failing(r, old(w.failures), w.failures)
      ensures OnlyLooked(old(w.sys), w.sys)
              || SomeRefill(w.g, cfg, old(w.sys), w.sys, old(w.Now()), w.Now(), delta, maxInput, fees)
      ensures r.Ok? ==> BeganRefill(w.g, cfg, old(w.sys), w.sys, old(w.Now()), w.Now(), r.value.0, delta, maxInput,
                                    fees)
                        && AttemptedAt(w.sys, r.value.0, fees, cfg.policy.GasLimit(Kind.Refill))
                        && Launched(w.sys, r.value.0, r.value.1)
                        && FirstAttempt(cfg.policy, w.sys, r.value.0, start, w.Now())
      ensures r.Err? && r.error != Unavailable ==> OnlyLooked(old(w.sys), w.sys)
      ensures r.Err? ==> r.error in {Unavailable, SimulationFailed, Unreconciled, BadInput, IntentConflict}
      ensures r.Err? ==> Barred(w.g, old(w.Now()), w.Now(), r.error)
      ensures SoleSigner(w.sys) ==> r != Err(Unreconciled)
    {
      hide Run, Inv, Later, Escalating, RefillID, AtMarket, Launched, Ready, FirstAttempt, OnlyAttempted;
      var i :- RecordRefill(delta, maxInput, fees);
      ghost var recorded := w.sys;
      var h := SubmitFirst(i, fees, start, priced);
      BeganThenAttempted(w.g, old(w.sys), recorded, w.sys, i.id);
      assert BeganRefill(w.g, cfg, old(w.sys), w.sys, old(w.Now()), w.Now(), i.id, delta, maxInput, fees)
             && AttemptedAt(w.sys, i.id, fees, cfg.policy.GasLimit(Kind.Refill));
      if h.Err? { return Err(Unavailable); }
      return Ok((i.id, h.value));
    }

    /** A refill that can execute now is recorded under the name of the nonce it takes,
        with a permit for the most it may spend, good for an hour, and no attempt. */
    method RecordRefill(delta: int, maxInput: int, m: Terms) returns (r: Result<Intent>)
      requires w.Valid() && Ready(w.sys)
      modifies w`sys, w`trace, w`checks, w`failures
      ensures w.Valid() && old(w.trace) <= w.trace && old(w.checks) <= w.checks
      ensures Failing(r, old(w.failures), w.failures)
      ensures OnlyLooked(old(w.sys), w.sys)
              || exists id :: BeganRefill(w.g, cfg, old(w.sys), w.sys, old(w.Now()), w.Now(), id, delta, maxInput, m)
                              && Fresh(w.sys, id)
      ensures r.Ok? ==> BeganRefill(w.g, cfg, old(w.sys), w.sys, old(w.Now()), w.Now(), r.value.id, delta, maxInput, m)
                        && w.sys.store.intents[r.value.id] == r.value && Fresh(w.sys, r.value.id)
      ensures r.Err? && r.error != Unavailable ==> OnlyLooked(old(w.sys), w.sys)
      ensures r.Err? ==> r.error in {Unavailable, SimulationFailed, Unreconciled, BadInput, IntentConflict}
      ensures r.Err? ==> Barred(w.g, old(w.Now()), w.Now(), r.error)
    {
      hide Run, Inv, Later, RefillID, Checked, OnlyLooked, CaughtUp;
      var data := RefillCall(maxInput, delta, maxInput, w.g.account, m.time + REFILL_WINDOW);
      ghost var start, begun := w.sys, w.trace;
      var nonce :- NonceFor(cfg.router, data, cfg.policy.GasLimit(Kind.Refill));
      var id := NameRefill(w.g.account, nonce);
      var i := Intent(id, Kind.Refill, cfg.router, maxInput, delta, nonce, data, m.head);
      FreshNonce(nonce);
      ghost var looked, seen := w.sys, w.trace;
      var put := w.PutIntent(i);
      CaughtUpStays(begun, begun, seen, w.trace, nonce);
      BeganNow(w.g, start, looked, w.sys, i);
      assert w.sys != looked ==>
        BeganRefill(w.g, cfg, old(w.sys), w.sys, old(w.Now()), w.Now(), id, delta, maxInput, m) && Fresh(w.sys, id);
      if put.Err? { return Err(put.error); }
      return Ok(i);
    }

    /** One operation at most is touched: the payment, or a refill that makes it possible
        later. Every refusal leaves intents, attempts and broadcasts as they were, and a
        payment already recorded never becomes a second operation. */
    method Pay(id: ID, kind: Kind, to: Address, amount: int) returns (r: Result<Paid>)
      requires w.Valid()
      modifies this, w
      ensures w.Valid() && Extends(old(w.Now()), w.Now()) && |w.heard| <= |old(w.heard)| + 3
      ensures Failing(r, old(w.failures), w.failures)
      ensures OneOperation(old(w.sys), w.sys, id)
              || exists x :: OneOperation(old(w.sys), w.sys, x) && x in w.sys.store.intents
                             && IsRefill(w.g, cfg, w.sys.store.intents[x])
      ensures r.Err? && r.error != Unavailable ==> OnlyLooked(old(w.sys), w.sys)
      ensures r.Err? ==> Explained(cfg.policy, old(w.Now()), w.Now(), amount, r.error)
      ensures (r.Ok? && r.value.refillId.Some?) || r == Err(NoRefillNeeded) ==>
                Explained(cfg.policy, old(w.Now()), w.Now(), amount, NeedRefill) && id !in old(w.sys).store.intents
      ensures r.Ok? && r.value.refillId.Some? ==>
                && Bought(w.g, cfg, old(w.sys), w.sys, old(w.Now()), w.Now(), r.value.refillId.value, amount)
                && Launched(w.sys, r.value.refillId.value, r.value.refillTx)
                && r.value.txHash == ZeroHash
      ensures r.Ok? && r.value.refillId.None? ==>
                && id in w.sys.store.intents && IsPayment(w.sys.store.intents[id], kind, to, amount)
                && r.value.refillTx == ZeroHash
                && (if id in w.sys.store.facts then r.value.txHash == ZeroHash
                    else Launched(w.sys, id, r.value.txHash))
      ensures r.Ok? && r.value.refillId.None? && id !in old(w.sys).store.intents ==>
                && GoAhead(cfg.policy, old(w.Now()), w.Now(), amount, w.sys.store.intents[id].fromBlock)
                && Rehearsed(w.g, cfg.policy, old(w.Now()), w.Now(), w.sys.store.intents[id])
                && (id !in w.sys.store.facts ==> FirstAttempt(cfg.policy, w.sys, id, old(w.Now()), w.Now()))
      ensures id in old(w.sys).store.intents ==>
                w.sys.store.intents == old(w.sys).store.intents
                && (Subs(old(w.sys).store, id) != [] ==> w.sys.store.subs == old(w.sys).store.subs)
      ensures Runway.Keeps(cfg.policy, old(w.trace), w.trace)
      ensures r.Err? ==> Barred(w.g, old(w.Now()), w.Now(), r.error)
      ensures r.Err? ==> r.error in {Unavailable, BadInput, WrongDomain, InFlight, Unreconciled, SimulationFailed,
                                     InsufficientStablecoin, InsufficientNative, FeesAboveBound, NoRefillNeeded,
                                     IntentConflict}
      ensures SoleSigner(w.sys) ==> r != Err(Unreconciled)
    {
      hide Run, Inv, Later, OneOperation, OnlyLooked, OnlyBegan, OnlyAttempted, Runway.Keeps, SoleSigner, Intruded,
          Heard, Checked, Bought, Decided, GoAhead, Rehearsed, Launched, IsRefill, FirstAttempt, WasRead, Gas.Decide,
          AttemptedAt;
      ghost var start, begun := w.sys, w.Now();
      var prepared := Prepare(id, kind, to, amount);
      ghost var looked, mid := w.sys, w.Now();
      PreparedThenSent(w.g, start, looked, looked, id);
      if prepared == Err(NeedRefill) {
        var bought := Refill(amount);
        AskedStays(cfg.policy, begun, mid, w.Now(), amount);
        KeepsOn(cfg.policy, begun.trace, mid.trace, w.trace);
        RefillIsOne(w.g, cfg, start, looked, w.sys, mid, w.Now(), id, amount);
        if bought.Err? {
          LookedTwice(start, looked, w.sys);
          ExplainedStays(cfg.policy, begun, mid, w.Now(), amount, bought.error);
          BarredStays(w.g, begun, mid, w.Now(), bought.error);
          return Err(bought.error);
        }
        LookedThenBought(w.g, cfg, start, looked, w.sys, begun, mid, w.Now(), bought.value.0, amount);
        return Ok(Paid(ZeroHash, Some(bought.value.0), bought.value.1));
      }
      if OnlyLooked(start, looked) { LookedTwice(start, looked, looked); }
      var _ :- prepared;
      var sent := Send(id);
      PreparedThenSent(w.g, start, looked, w.sys, id);
      SendingFollows(w.g, cfg.policy, begun.trace, mid.trace, w.trace, id);
      if OnlyLooked(start, looked) {
        LookedThenSent(w.g, start, looked, w.sys, id);
      } else {
        JustPaid(w.g, cfg.policy, begun, mid, w.Now(), looked.store.intents[id], amount);
      }
      var h :- sent;
      if id !in start.store.intents && id !in w.sys.store.facts {
        FirstStays(cfg.policy, w.sys, id, begun, mid, w.Now());
      }
      return Ok(Paid(h, None, ZeroHash));
    }
  }
}
