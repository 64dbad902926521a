/** Everything outside one Rail object: the durable store, the node and the chain
    behind it. Each operation first lets the chain move as it likes, and each may
    fail, with a write landing or not: that is also what a process killed there
    leaves behind. Every write and every broadcast is one step of the protocol,
    recorded in a trace. */
module World {
  import opened Types
  import opened Records
  import opened Chain
  import opened Protocol

  /** Only the chain has moved. */
  ghost predicate Quiet(g: Config, s: Sys, t: Sys) {
    && t.store == s.store && t.origin == s.origin && t.opening == s.opening
    && t.chain.ours == s.chain.ours && Later(g, s.chain, t.chain)
    && s.chain.settled <= t.chain.settled && Spent(s.chain) <= Spent(t.chain)
    && (forall b: nat :: b <= s.chain.settled ==> NonceAt(t.chain, b) == NonceAt(s.chain, b))
  }

  /** The transaction is in some pool, or its nonce is no longer free (rail.go:639). */
  predicate WithTheNetwork(c: Chain, tx: Tx) {
    tx in c.ours || tx in c.foreign || (c.blocks != [] && tx.nonce < Head(c).nonce)
  }

  /** Some transaction of the account has been signed for this nonce. */
  predicate Signed(c: Chain, nonce: nat) {
    exists tx :: tx in c.ours + c.foreign && tx.nonce == nonce
  }

  /** What a node said that the state does not keep: a fee market, with the latest head
      it came from, or the venue's price for an exact output. */
  datatype Answer =
    | Market(head: nat, time: nat, baseFee: Option<nat>, suggested: nat)
    | Quoted(delta: int, input: int)

  /** What a node was asked to confirm: which chain it serves, or that a call would run. */
  datatype Check = Served(chainId: int) | Simulated(to: Address, data: Calldata, gas: nat, runs: bool)

  /** Said during the call, which took what was heard from `before` to `after`. */
  ghost predicate Heard(before: seq<Answer>, after: seq<Answer>, a: Answer) {
    exists n :: |before| <= n < |after| && after[n] == a
  }

  /** Checked during the call. */
  ghost predicate Checked(before: seq<Check>, after: seq<Check>, c: Check) {
    exists n :: |before| <= n < |after| && after[n] == c
  }

  /** The run so far, and everything heard and checked. */
  datatype Moment = Moment(trace: seq<Sys>, heard: seq<Answer>, checks: seq<Check>)

  predicate Extends(before: Moment, after: Moment) {
    before.trace <= after.trace && before.heard <= after.heard && before.checks <= after.checks
  }

  /** A node or the store failed exactly when the answer says so. */
  predicate Failing<T>(r: Result<T>, before: nat, after: nat) {
    after == before + (if r.Err? && r.error.Unavailable? then 1 else 0)
  }

  datatype SendReply = Accepted | AlreadyKnown | Refused

  datatype FoundLog = FoundLog(key: LogKey, log: Log, block: nat)

  lemma EnvIsQuiet(g: Config, s: Sys, e: EnvStep)
    requires Inv(g, s) && EnvEnabled(g, s.chain, e)
    ensures Quiet(g, s, Apply(g, s, Env(e)))
  {
    EnvKeepsInv(g, s.chain, e);
    SpentGrows(g, s.chain, EnvApply(g, s.chain, e));
  }

  lemma QuietTrans(g: Config, s: Sys, t: Sys, u: Sys)
    requires Quiet(g, s, t) && Quiet(g, t, u)
    ensures Quiet(g, s, u)
  {
    LaterTrans(g, s.chain, t.chain, u.chain);
  }

  class World {
    const g: Config
    var sys: Sys
    ghost var trace: seq<Sys>
    ghost var heard: seq<Answer>
    ghost var checks: seq<Check>
    ghost var failures: nat

    /** The state is the last one of a run from a fresh store. */
    ghost predicate Valid()
      reads this`sys, this`trace
    {
      trace != [] && Run(g, trace) && trace[|trace| - 1] == sys
    }

    ghost function Now(): Moment
      reads this`trace, this`heard, this`checks
    {
      Moment(trace, heard, checks)
    }

    constructor (g: Config, chain: Chain, opening: int)
      requires ChainInv(g, chain) && BalanceInv(g, chain, opening) && NativeInv(chain) && chain.ours == {}
      ensures Valid() && this.g == g && sys.store == EMPTY && sys.chain == chain && sys.opening == opening
    {
      this.g := g;
      sys := Sys(EMPTY, chain, opening, None);
      trace := [Sys(EMPTY, chain, opening, None)];
      heard, checks, failures := [], [], 0;
    }

    lemma Sound()
      requires Valid()
      ensures Inv(g, sys)
    {
      RunKeepsInv(g, trace, |trace| - 1);
    }

    /** What has been so at any point of the run still holds of what grows. */
    lemma Since(n: nat)
      requires Valid() && n < |trace|
      ensures SysLater(g, trace[n], sys)
    {
      RunOnlyGrows(g, trace, n, |trace| - 1);
    }

    method Take(st: Step)
      requires Valid() && Enabled(g, sys, st)
      modifies this`sys, this`trace
      ensures Valid() && old(trace) <= trace && sys == Apply(g, old(sys), st)
    {
      ExtendRun(g, trace, st);
      sys := Apply(g, sys, st);
      trace := trace + [sys];
    }

    /** The chain moves: any number of steps, any of them. */
    method Tick()
      requires Valid()
      modifies this`sys, this`trace
      ensures Valid() && old(trace) <= trace && Quiet(g, old(sys), sys)
    {
      hide Run, Inv, Later, ChainInv, EnvEnabled;
      Sound();
      StillQuiet();
      var n: nat := *;
      while n > 0
        invariant Valid() && old(trace) <= trace && Quiet(g, old(sys), sys)
      {
        var e: EnvStep := *;
        if EnvEnabled(g, sys.chain, e) {
          Sound();
          EnvIsQuiet(g, sys, e);
          QuietTrans(g, old(sys), sys, Apply(g, sys, Env(e)));
          assert Enabled(g, sys, Env(e));
          Take(Env(e));
        }
        n := n - 1;
      }
    }

    lemma StillQuiet()
      requires Inv(g, sys)
      ensures Quiet(g, sys, sys)
    {
      LaterRefl(g, sys.chain);
    }

    /** The node or the store could not answer. */
    method Fail<T>() returns (r: Result<T>)
      modifies this`failures
      ensures r == Err(Unavailable) && failures == old(failures) + 1
    {
      failures := failures + 1;
      return Err(Unavailable);
    }

    // ----- the node -----

    method ChainID() returns (r: Result<int>)
      requires Valid()
      modifies this`sys, this`trace, this`checks, this`failures
      ensures Valid() && old(trace) <= trace && Quiet(g, old(sys), sys)
      ensures r.Err? ==> r.error == Unavailable
      ensures Failing(r, old(failures), failures)
      ensures checks == old(checks) + (if r.Ok? then [Served(r.value)] else [])
    {
      hide Run, Later;
      Tick();
      var id: int := *;
      var up: bool := *;
      if !up { r := Fail(); return; }
      checks := checks + [Served(id)];
      return Ok(id);
    }

    /** The number of the settled head. */
    method SettledHead() returns (r: Result<nat>)
      requires Valid()
      modifies this`sys, this`trace, this`failures
      ensures Valid() && old(trace) <= trace && Quiet(g, old(sys), sys)
      ensures r.Err? ==> r.error == Unavailable
      ensures Failing(r, old(failures), failures)
      ensures r.Ok? ==> r.value == sys.chain.settled
    {
      hide Run, Later;
      Tick();
      var up: bool := *;
      if !up { r := Fail(); return; }
      return Ok(sys.chain.settled);
    }

    method NonceAtBlock(block: nat) returns (r: Result<nat>)
      requires Valid() && block <= sys.chain.settled
      modifies this`sys, this`trace, this`failures
      ensures Valid() && old(trace) <= trace && Quiet(g, old(sys), sys)
      ensures r.Err? ==> r.error == Unavailable
      ensures Failing(r, old(failures), failures)
      ensures r.Ok? ==> r.value == NonceAt(sys.chain, block) == NonceAt(old(sys.chain), block)
    {
      hide Run, Later;
      Tick();
      var up: bool := *;
      if !up { r := Fail(); return; }
      return Ok(NonceAt(sys.chain, block));
    }

    /** What the node counts as the next nonce: it knows every mined one, and as many
        waiting ones, each of which somebody signed, as its pool still holds. */
    method PendingNonce() returns (r: Result<nat>)
      requires Valid()
      modifies this`sys, this`trace, this`failures
      ensures Valid() && old(trace) <= trace && Quiet(g, old(sys), sys)
      ensures r.Err? ==> r.error == Unavailable
      ensures Failing(r, old(failures), failures)
      ensures r.Ok? ==> sys.chain.blocks != [] && Head(sys.chain).nonce <= r.value
                        && forall n: nat :: Head(sys.chain).nonce <= n < r.value ==> Signed(sys.chain, n)
    {
      hide Run, Later;
      Tick();
      Sound();
      var next: nat := *;
      var up: bool := *;
      var mined := Head(sys.chain).nonce;
      if !up || next < mined || exists n: nat :: mined <= n < next && !Signed(sys.chain, n) { r := Fail(); return; }
      return Ok(next);
    }

    method TransactionReceipt(h: Hash) returns (r: Result<Option<Receipt>>)
      requires Valid()
      modifies this`sys, this`trace, this`failures
      ensures Valid() && old(trace) <= trace && Quiet(g, old(sys), sys)
      ensures r.Err? ==> r.error == Unavailable
      ensures Failing(r, old(failures), failures)
      ensures r.Ok? && r.value.Some? ==>
                h.HashOf? && h.tx in sys.chain.receipts && sys.chain.receipts[h.tx] == r.value.value
      ensures r.Ok? && r.value.None? && h.HashOf? ==> h.tx !in sys.chain.receipts
    {
      hide Run, Later;
      Tick();
      var up: bool := *;
      if !up { r := Fail(); return; }
      return Ok(if h.HashOf? && h.tx in sys.chain.receipts then Some(sys.chain.receipts[h.tx]) else None);
    }

    /** Transfers of the token to the account in a range of blocks. */
    method FilterLogs(from: nat, last: nat) returns (r: Result<seq<FoundLog>>)
      requires Valid()
      modifies this`sys, this`trace, this`failures
      ensures Valid() && old(trace) <= trace && Quiet(g, old(sys), sys)
      ensures r.Err? ==> r.error == Unavailable
      ensures Failing(r, old(failures), failures)
      ensures r.Ok? ==> AnswersFilter(g, sys.chain, from, last, r.value)
    {
      hide Run, Later;
      Tick();
      var up: bool := *;
      if !up { r := Fail(); return; }
      var found := CollectLogs(g, sys.chain, from, last);
      return Ok(found);
    }

    /** The account's latest token balance. */
    method TokenBalance() returns (r: Result<int>)
      requires Valid()
      modifies this`sys, this`trace, this`failures
      ensures Valid() && old(trace) <= trace && Quiet(g, old(sys), sys)
      ensures r.Err? ==> r.error == Unavailable
      ensures Failing(r, old(failures), failures)
      ensures r.Ok? ==> sys.chain.blocks != [] && r.value == Head(sys.chain).balance
    {
      hide Run, Later;
      Tick();
      Sound();
      var up: bool := *;
      if !up { r := Fail(); return; }
      return Ok(Head(sys.chain).balance);
    }

    /** The account's latest native balance. */
    method NativeBalance() returns (r: Result<int>)
      requires Valid()
      modifies this`sys, this`trace, this`failures
      ensures Valid() && old(trace) <= trace && Quiet(g, old(sys), sys)
      ensures r.Err? ==> r.error == Unavailable
      ensures Failing(r, old(failures), failures)
      ensures r.Ok? ==> sys.chain.blocks != [] && r.value == Head(sys.chain).native
    {
      hide Run, Later;
      Tick();
      Sound();
      var up: bool := *;
      if !up { r := Fail(); return; }
      return Ok(Head(sys.chain).native);
    }

    /** The token and native balances after one settled block. */
    method BalancesAtBlock(block: nat) returns (r: Result<(int, int)>)
      requires Valid() && block <= sys.chain.settled
      modifies this`sys, this`trace, this`failures
      ensures Valid() && old(trace) <= trace && Quiet(g, old(sys), sys)
      ensures r.Err? ==> r.error == Unavailable
      ensures Failing(r, old(failures), failures)
      ensures r.Ok? ==> block < |sys.chain.blocks|
                        && r.value == (sys.chain.blocks[block].balance, sys.chain.blocks[block].native)
    {
      hide Run, Later;
      Tick();
      Sound();
      var up: bool := *;
      if !up { r := Fail(); return; }
      return Ok((sys.chain.blocks[block].balance, sys.chain.blocks[block].native));
    }

    /** The latest head and its time, its base fee if it has one, and the suggested tip. */
    method FeeMarket() returns (r: Result<(nat, nat, Option<nat>, nat)>)
      requires Valid()
      modifies this`sys, this`trace, this`heard, this`failures
      ensures Valid() && old(trace) <= trace && Quiet(g, old(sys), sys)
      ensures r.Err? ==> r.error == Unavailable && heard == old(heard)
      ensures Failing(r, old(failures), failures)
      ensures r.Ok? ==> heard == old(heard) + [Market(r.value.0, r.value.1, r.value.2, r.value.3)]
    {
      hide Run, Later;
      Tick();
      var head, time, tip: nat := *, *, *;
      var baseFee: Option<nat> := *;
      var up: bool := *;
      if !up { r := Fail(); return; }
      heard := heard + [Market(head, time, baseFee, tip)];
      return Ok((head, time, baseFee, tip));
    }

    /** What the venue asks for an exact output; never nothing. */
    method QuoteRefill(delta: int) returns (r: Result<int>)
      requires Valid()
      modifies this`sys, this`trace, this`heard, this`failures
      ensures Valid() && old(trace) <= trace && Quiet(g, old(sys), sys)
      ensures r.Err? ==> r.error == Unavailable && heard == old(heard)
      ensures Failing(r, old(failures), failures)
      ensures r.Ok? ==> r.value > 0 && heard == old(heard) + [Quoted(delta, r.value)]
    {
      hide Run, Later;
      Tick();
      var quote: nat := *;
      var up: bool := *;
      if !up || quote <= 0 { r := Fail(); return; }
      heard := heard + [Quoted(delta, quote)];
      return Ok(quote);
    }

    /** Whether a call would execute now. */
    method Simulate(to: Address, data: Calldata, gas: nat) returns (r: Result<()>)
      requires Valid()
      modifies this`sys, this`trace, this`checks
      ensures Valid() && old(trace) <= trace && Quiet(g, old(sys), sys)
      ensures r.Err? ==> r.error == SimulationFailed
      ensures checks == old(checks) + [Simulated(to, data, gas, r.Ok?)]
    {
      hide Run, Later;
      Tick();
      var runs: bool := *;
      checks := checks + [Simulated(to, data, gas, runs)];
      return if runs then Ok(()) else Err(SimulationFailed);
    }

    /** A node may take a transaction and still fail to say so. */
    method SendTransaction(tx: Tx) returns (reply: SendReply)
      requires Valid() && Recorded(sys.store, tx)
      modifies this`sys, this`trace, this`failures
      ensures Valid() && old(trace) <= trace
      ensures sys.store == old(sys.store) && sys.origin == old(sys.origin) && sys.opening == old(sys.opening)
      ensures Later(g, old(sys.chain), sys.chain) && Spent(old(sys.chain)) <= Spent(sys.chain)
      ensures sys.chain.ours == old(sys.chain.ours) || sys.chain.ours == old(sys.chain.ours) + {tx}
      ensures !reply.Refused? ==> WithTheNetwork(sys.chain, tx)
      ensures failures == old(failures) + (if reply.Refused? then 1 else 0)
    {
      hide Run, Later, ChainInv;
      Tick();
      var taken: bool := *;
      if !taken {
        var said: bool := *;
        if said && WithTheNetwork(sys.chain, tx) { return AlreadyKnown; }
        failures := failures + 1;
        return Refused;
      }
      ghost var before := sys;
      Sound();
      SendKeepsInv(g, sys, tx);
      Take(Send(tx));
      LaterTrans(g, old(sys.chain), before.chain, sys.chain);
      var said: bool := *;
      if said { return Accepted; }
      failures := failures + 1;
      return Refused;
    }

    // ----- the store -----

    method Intent(id: ID) returns (r: Result<Option<Intent>>)
      requires Valid()
      modifies this`sys, this`trace, this`failures
      ensures Valid() && old(trace) <= trace && Quiet(g, old(sys), sys)
      ensures r.Err? ==> r.error == Unavailable
      ensures Failing(r, old(failures), failures)
      ensures r.Ok? ==> r.value == if id in sys.store.intents then Some(sys.store.intents[id]) else None
    {
      hide Run, Later;
      Tick();
      var up: bool := *;
      if !up { r := Fail(); return; }
      return Ok(if id in sys.store.intents then Some(sys.store.intents[id]) else None);
    }

    method IntentByNonce(nonce: nat) returns (r: Result<Option<Intent>>)
      requires Valid()
      modifies this`sys, this`trace, this`failures
      ensures Valid() && old(trace) <= trace && Quiet(g, old(sys), sys)
      ensures r.Err? ==> r.error == Unavailable
      ensures Failing(r, old(failures), failures)
      ensures r.Ok? && r.value.Some? ==> var i := r.value.value;
                                         i.nonce == nonce && i.id in sys.store.intents && sys.store.intents[i.id] == i
      ensures r.Ok? && r.value.None? ==> !NonceTaken(sys.store, nonce)
    {
      hide Run, Later;
      Tick();
      Sound();
      var up: bool := *;
      if !up { r := Fail(); return; }
      if NonceTaken(sys.store, nonce) {
        var id :| id in sys.store.intents && sys.store.intents[id].nonce == nonce;
        return Ok(Some(sys.store.intents[id]));
      }
      return Ok(None);
    }

    method Submissions(id: ID) returns (r: Result<seq<Submission>>)
      requires Valid()
      modifies this`sys, this`trace, this`failures
      ensures Valid() && old(trace) <= trace && Quiet(g, old(sys), sys)
      ensures r.Err? ==> r.error == Unavailable
      ensures Failing(r, old(failures), failures)
      ensures r.Ok? ==> r.value == Subs(sys.store, id)
    {
      hide Run, Later;
      Tick();
      var up: bool := *;
      if !up { r := Fail(); return; }
      return Ok(Subs(sys.store, id));
    }

    method Fact(id: ID) returns (r: Result<Option<Fact>>)
      requires Valid()
      modifies this`sys, this`trace, this`failures
      ensures Valid() && old(trace) <= trace && Quiet(g, old(sys), sys)
      ensures r.Err? ==> r.error == Unavailable
      ensures Failing(r, old(failures), failures)
      ensures r.Ok? ==> r.value == if id in sys.store.facts then Some(sys.store.facts[id]) else None
    {
      hide Run, Later;
      Tick();
      var up: bool := *;
      if !up { r := Fail(); return; }
      return Ok(if id in sys.store.facts then Some(sys.store.facts[id]) else None);
    }

    /** The unresolved intents, oldest first. */
    method Pending() returns (r: Result<seq<Intent>>)
      requires Valid()
      modifies this`sys, this`trace, this`failures
      ensures Valid() && old(trace) <= trace && Quiet(g, old(sys), sys)
      ensures r.Err? ==> r.error == Unavailable
      ensures Failing(r, old(failures), failures)
      ensures r.Ok? ==> ListsPending(sys.store, r.value)
    {
      hide Run, Later;
      Tick();
      Sound();
      var up: bool := *;
      if !up { r := Fail(); return; }
      var out := InOrder(PendingRows(sys.store), Plain);
      return Ok(out);
    }

    method Cursor() returns (r: Result<Option<nat>>)
      requires Valid()
      modifies this`sys, this`trace, this`failures
      ensures Valid() && old(trace) <= trace && Quiet(g, old(sys), sys)
      ensures r.Err? ==> r.error == Unavailable
      ensures Failing(r, old(failures), failures)
      ensures r.Ok? ==> r.value == sys.store.cursor
    {
      hide Run, Later;
      Tick();
      var up: bool := *;
      if !up { r := Fail(); return; }
      return Ok(sys.store.cursor);
    }

    method NonceFloor() returns (r: Result<Option<nat>>)
      requires Valid()
      modifies this`sys, this`trace, this`failures
      ensures Valid() && old(trace) <= trace && Quiet(g, old(sys), sys)
      ensures r.Err? ==> r.error == Unavailable
      ensures Failing(r, old(failures), failures)
      ensures r.Ok? ==> r.value == sys.store.floor
    {
      hide Run, Later;
      Tick();
      var up: bool := *;
      if !up { r := Fail(); return; }
      return Ok(sys.store.floor);
    }

    /** Records the write-ahead intent, or says why not. */
    method PutIntent(i: Intent) returns (r: Result<()>)
      requires Valid()
      requires i.Valid() && i.id !in sys.store.intents && !NonceTaken(sys.store, i.nonce) ==> MayRecord(g, sys, i)
      modifies this`sys, this`trace, this`failures
      ensures Valid() && old(trace) <= trace && sys.chain == old(sys.chain)
      ensures sys == old(sys) || (Admits(old(sys.store), i) && sys == Apply(g, old(sys), RecordIntent(i)))
      ensures r.Ok? ==> Admits(old(sys.store), i) && sys == Apply(g, old(sys), RecordIntent(i))
      ensures Failing(r, old(failures), failures)
      ensures r.Err? ==> r.error == Unavailable
                         || (!Admits(old(sys.store), i) && r.error == if i.Valid() then IntentConflict else BadInput)
    {
      if !i.Valid() { return Err(BadInput); }
      if i.id in sys.store.intents {
        return if sys.store.intents[i.id].SameTerms(i) then Ok(()) else Err(IntentConflict);
      }
      if NonceTaken(sys.store, i.nonce) { return Err(IntentConflict); }
      r := Write(RecordIntent(i));
    }

    /** One durable write: it lands and is reported, lands unreported, or is lost. */
    method Write(st: Step) returns (r: Result<()>)
      requires Valid() && Enabled(g, sys, st) && StoreCall(st).Some?
      modifies this`sys, this`trace, this`failures
      ensures Valid() && old(trace) <= trace && sys.chain == old(sys.chain)
      ensures sys == old(sys) || sys == Apply(g, old(sys), st)
      ensures r.Ok? ==> sys == Apply(g, old(sys), st)
      ensures r.Err? ==> r.error == Unavailable
      ensures Failing(r, old(failures), failures)
    {
      var lands: bool := *;
      if !lands { r := Fail(); return; }
      Take(st);
      var said: bool := *;
      if !said { r := Fail(); return; }
      return Ok(());
    }
  }

  // ----- list reads -----

  /** A node's answer to the deposit query: every matching log in the range, once. */
  ghost predicate AnswersFilter(g: Config, c: Chain, from: nat, last: nat, found: seq<FoundLog>) {
    && (forall k :: 0 <= k < |found| ==> IsFound(g, c, from, last, found[k]))
    && (forall tx, i: nat :: Matching(g, c, from, last, tx, i) ==> FoundAt(c, tx, i) in found)
    && EachOnce(found)
  }

  predicate EachOnce(found: seq<FoundLog>) {
    forall j, k :: 0 <= j < k < |found| ==> found[j].key != found[k].key
  }

  /** The log is of a transaction already visited, or an earlier one of this one. */
  predicate Visited(f: FoundLog, left: set<Tx>, tx: Tx, until: nat) {
    f.key.txHash.HashOf? && f.key.txHash.tx !in left && (f.key.txHash.tx == tx ==> f.key.index < until)
  }

  predicate Matching(g: Config, c: Chain, from: nat, last: nat, tx: Tx, i: nat) {
    && tx in c.receipts && from <= c.receipts[tx].block <= last
    && i < |c.receipts[tx].logs| && FilterMatch(g, c.receipts[tx].logs[i])
  }

  function FoundAt(c: Chain, tx: Tx, i: nat): FoundLog
    requires tx in c.receipts && i < |c.receipts[tx].logs|
  {
    var r := c.receipts[tx];
    FoundLog(LogKey(HashOf(tx), r.firstIndex + i), r.logs[i], r.block)
  }

  ghost predicate IsFound(g: Config, c: Chain, from: nat, last: nat, f: FoundLog) {
    exists tx, i: nat :: Matching(g, c, from, last, tx, i) && f == FoundAt(c, tx, i)
  }

  method CollectLogs(g: Config, c: Chain, from: nat, last: nat) returns (found: seq<FoundLog>)
    ensures AnswersFilter(g, c, from, last, found)
  {
    found := [];
    var left := c.receipts.Keys;
    while left != {}
      invariant left <= c.receipts.Keys
      invariant forall k :: 0 <= k < |found| ==> IsFound(g, c, from, last, found[k])
      invariant forall tx, i: nat :: Matching(g, c, from, last, tx, i) && tx !in left ==> FoundAt(c, tx, i) in found
      invariant EachOnce(found)
      invariant forall k :: 0 <= k < |found| ==> found[k].key.txHash.HashOf? && found[k].key.txHash.tx !in left
      decreases left
    {
      var tx :| tx in left;
      left := left - {tx};
      var r := c.receipts[tx];
      var n := 0;
      while n < |r.logs|
        invariant 0 <= n <= |r.logs|
        invariant forall k :: 0 <= k < |found| ==> IsFound(g, c, from, last, found[k])
        invariant forall t, i: nat :: Matching(g, c, from, last, t, i) && t !in left && (t == tx ==> i < n)
                    ==> FoundAt(c, t, i) in found
        invariant EachOnce(found)
        invariant forall k :: 0 <= k < |found| ==> Visited(found[k], left, tx, r.firstIndex + n)
      {
        if Matching(g, c, from, last, tx, n) {
          assert IsFound(g, c, from, last, FoundAt(c, tx, n));
          found := found + [FoundAt(c, tx, n)];
        }
        n := n + 1;
      }
    }
  }
}
