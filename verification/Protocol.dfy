/** The payment lifecycle as a transition system over the durable records and the
    chain. Every durable write, every broadcast and every move of the chain is one
    step, so a crash may fall between any two of them: what is not in the state is
    what a crash forgets. */
module Protocol {
  import opened Types
  import opened Fees
  import opened Records
  import opened Chain

  datatype Sys = Sys(
    store: Records,
    chain: Chain,
    opening: int,           // the token balance before the first block
    origin: Option<nat>)    // the first nonce floor ever bound

  /** Whether a settled receipt carried the intent out (status.go:270). */
  predicate Executed(g: Config, i: Intent, r: Receipt) {
    r.success
    && (i.kind.Refill?
        || exists k :: 0 <= k < |r.logs| && !r.logs[k].removed
                       && TransferLog(r.logs[k], g.token, g.account, i.to, i.amount))
  }

  predicate HasHash(subs: seq<Submission>, h: Hash) {
    exists k :: 0 <= k < |subs| && subs[k].txHash == h
  }

  /** A recorded attempt at this intent was mined as this transaction. */
  ghost predicate MinedAttempt(s: Sys, id: ID, tx: Tx) {
    tx in s.chain.receipts && HasHash(Subs(s.store, id), HashOf(tx))
  }

  /** The transaction is a recorded attempt at some intent. */
  ghost predicate Recorded(r: Records, tx: Tx) {
    exists id :: id in r.subs && HasHash(r.subs[id], HashOf(tx))
  }

  /** The outcome of an intent once its nonce has settled: its mined attempt and whether
      that executed it, or no transaction at all when none of its attempts was mined. */
  ghost predicate IsOutcome(g: Config, s: Sys, i: Intent, f: Fact) {
    match f.txHash
    case ZeroHash => f == Fact(ZeroHash, 0, false) && forall tx :: !MinedAttempt(s, i.id, tx)
    case HashOf(tx) =>
      MinedAttempt(s, i.id, tx)
      && f.block == s.chain.receipts[tx].block && f.executed == Executed(g, i, s.chain.receipts[tx])
  }

  /** The call an intent records is the one its terms describe: a transfer, or a permit
      for the most a refill may spend, a swap for exactly its size within that bound,
      and delivery to the account itself. */
  predicate WellBuilt(g: Config, i: Intent) {
    && i.Valid()
    && (if i.kind.Refill?
        then i.calldata.RefillCall?
             && i.calldata == RefillCall(i.amount, i.delta, i.amount, g.account, i.calldata.deadline)
        else i.calldata == TransferCall(i.to, i.amount))
  }

  /** The deposit a log is, if it is one. */
  function DepositAt(g: Config, c: Chain, k: LogKey): Option<Deposit> {
    if k.txHash.HashOf? && k.txHash.tx in c.receipts then
      var r := c.receipts[k.txHash.tx];
      if r.firstIndex <= k.index < r.firstIndex + |r.logs| && g.fromBlock <= r.block then
        var l := r.logs[k.index - r.firstIndex];
        if FilterMatch(g, l) && Incoming(g, l) then Some(Deposit(AddressOf(l.topics[1]), Word(l), r.block)) else None
      else None
    else None
  }

  /** Every deposit the chain holds up to a block has been recorded. */
  ghost predicate ScannedTo(g: Config, s: Sys, block: nat) {
    forall k :: DepositAt(g, s.chain, k).Some? && DepositAt(g, s.chain, k).value.block <= block ==>
        k in s.store.deposits
  }

  /** A nonce is accounted for by an intent one of whose recorded attempts won it. */
  ghost predicate Accounted(r: Records, nonce: nat) {
    exists id :: id in r.intents && r.intents[id].nonce == nonce && id in r.facts && !r.facts[id].txHash.ZeroHash?
  }

  /** Nothing else has signed with the key since the first floor was bound. What the
      key did before that is nobody's concern. */
  ghost predicate SoleSigner(s: Sys) {
    s.origin.Some? ==> forall tx :: tx in s.chain.foreign ==> tx.nonce < s.origin.value
  }

  /** Something else has signed with the key at or above the nonces accounted for. */
  ghost predicate Intruded(s: Sys) {
    s.origin.Some? && s.store.floor.Some?
    && exists tx :: tx in s.chain.foreign && s.origin.value <= s.store.floor.value <= tx.nonce
  }

  /** A nonce no recorded operation can account for: nothing owns it, or what owns it
      settled as something never recorded. */
  ghost predicate Orphaned(r: Records, nonce: nat) {
    || !NonceTaken(r, nonce)
    || exists id :: id in r.intents && r.intents[id].nonce == nonce && id in r.facts && r.facts[id].txHash.ZeroHash?
  }

  predicate AllResolved(r: Records) {
    forall id :: id in r.intents ==> id in r.facts
  }

  /** Everything recorded is resolved and the spent nonces are accounted for: a new
      operation may take a nonce. */
  ghost predicate Ready(s: Sys) {
    && s.store.floor.Some? && s.store.floor.value <= Spent(s.chain)
    && AllResolved(s.store)
    && (forall id :: id in s.store.intents ==> s.store.intents[id].nonce < Spent(s.chain))
  }

  datatype Step =
    | Env(e: EnvStep)
    | RecordIntent(i: Intent)
    | RecordAttempt(id: ID, sub: Submission)
    | Send(tx: Tx)
    | RecordFact(factId: ID, f: Fact)
    | RecordDeposit(k: LogKey, d: Deposit)
    | MoveCursor(block: nat)
    | MoveFloor(nonce: nat)

  ghost predicate MayRecord(g: Config, s: Sys, i: Intent) {
    && WellBuilt(g, i) && i.id !in s.store.intents
    && s.store.floor.Some? && s.store.floor.value <= i.nonce <= Spent(s.chain)
    && AllResolved(s.store)
    && (forall id :: id in s.store.intents ==> s.store.intents[id].nonce < i.nonce)
  }

  ghost predicate MayAttempt(g: Config, s: Sys, id: ID, sub: Submission) {
    && id in s.store.intents && id !in s.store.facts
    && FeeRule(Subs(s.store, id), sub)
    && sub.txHash == HashOf(TxFor(g, s.store.intents[id], sub))
  }

  ghost predicate MaySettle(g: Config, s: Sys, id: ID, f: Fact) {
    id in s.store.intents && s.store.intents[id].nonce < Spent(s.chain) && IsOutcome(g, s, s.store.intents[id], f)
  }

  ghost predicate MayMoveFloor(s: Sys, nonce: nat) {
    && s.chain.blocks != [] && s.chain.blocks[0].nonce <= nonce <= Spent(s.chain)
    && (s.store.floor.Some? ==> forall n :: s.store.floor.value <= n < nonce ==> Accounted(s.store, n))
  }

  ghost predicate Enabled(g: Config, s: Sys, st: Step) {
    match st
    case Env(e) => EnvEnabled(g, s.chain, e)
    case RecordIntent(i) => MayRecord(g, s, i)
    case RecordAttempt(id, sub) => MayAttempt(g, s, id, sub)
    case Send(tx) => Recorded(s.store, tx)
    case RecordFact(id, f) => MaySettle(g, s, id, f)
    case RecordDeposit(k, d) => DepositAt(g, s.chain, k) == Some(d) && d.block <= s.chain.settled
    case MoveCursor(b) => g.fromBlock <= b <= s.chain.settled && ScannedTo(g, s, b)
    case MoveFloor(n) => MayMoveFloor(s, n)
  }

  function Apply(g: Config, s: Sys, st: Step): Sys {
    match st
    case Env(e) => if s.chain.blocks == [] then s else s.(chain := EnvApply(g, s.chain, e))
    case RecordIntent(i) => s.(store := PutIntent(s.store, i))
    case RecordAttempt(id, sub) => s.(store := AppendSubmission(s.store, id, sub))
    case Send(tx) => s.(chain := Broadcast(s.chain, tx))
    case RecordFact(id, f) => s.(store := PutFact(s.store, id, f))
    case RecordDeposit(k, d) => s.(store := PutDeposit(s.store, k, d))
    case MoveCursor(b) => s.(store := PutCursor(s.store, b))
    case MoveFloor(n) => s.(store := PutFloor(s.store, n), origin := if s.store.floor.None? then Some(n) else s.origin)
  }

  // ----- invariants -----

  ghost predicate RecordsInv(g: Config, r: Records) {
    && Keyed(r)
    && (forall id :: id in r.intents ==> WellBuilt(g, r.intents[id]))
    && r.subs.Keys <= r.intents.Keys && r.facts.Keys <= r.intents.Keys
  }

  /** Attempts differ only in their fees, which only rise, and each stored hash is
      the hash rebuilt from the stored record. */
  ghost predicate AttemptsOf(g: Config, i: Intent, subs: seq<Submission>) {
    Escalating(subs) && forall k :: 0 <= k < |subs| ==> subs[k].txHash == HashOf(TxFor(g, i, subs[k]))
  }

  ghost predicate AttemptsInv(g: Config, r: Records) {
    forall id :: id in r.intents ==> AttemptsOf(g, r.intents[id], Subs(r, id))
  }

  ghost predicate WriteAhead(s: Sys) {
    forall tx :: tx in s.chain.ours ==> Recorded(s.store, tx)
  }

  /** Whatever is unresolved is the newest operation. */
  ghost predicate OneInFlight(r: Records) {
    forall a, b :: a in PendingIds(r) && b in r.intents ==> r.intents[b].nonce <= r.intents[a].nonce
  }

  ghost predicate FactsInv(g: Config, s: Sys) {
    forall id :: id in s.store.facts ==> MaySettle(g, s, id, s.store.facts[id])
  }

  ghost predicate FloorInv(s: Sys) {
    match s.store.floor
    case None => s.store.intents == map[] && s.origin.None?
    case Some(floor) =>
      && s.origin.Some? && s.chain.blocks != []
      && s.chain.blocks[0].nonce <= s.origin.value <= floor <= Spent(s.chain)
      && (forall id :: id in s.store.intents ==> s.origin.value <= s.store.intents[id].nonce <= Spent(s.chain))
      && (forall n :: s.origin.value <= n < floor ==> Accounted(s.store, n))
  }

  ghost predicate ScanInv(g: Config, s: Sys) {
    && (forall k :: k in s.store.deposits ==>
          DepositAt(g, s.chain, k) == Some(s.store.deposits[k]) && s.store.deposits[k].block <= s.chain.settled)
    && (s.store.cursor.Some? ==>
          g.fromBlock <= s.store.cursor.value <= s.chain.settled && ScannedTo(g, s, s.store.cursor.value))
  }

  ghost predicate Inv(g: Config, s: Sys) {
    && ChainInv(g, s.chain) && BalanceInv(g, s.chain, s.opening)
    && RecordsInv(g, s.store) && AttemptsInv(g, s.store) && WriteAhead(s) && OneInFlight(s.store)
    && FactsInv(g, s) && FloorInv(s) && ScanInv(g, s)
  }

  // ----- what an intent's attempts have in common -----

  /** An attempt at an intent has its nonce, its target and its call. */
  lemma AttemptIsIntent(g: Config, s: Sys, id: ID, tx: Tx)
    requires RecordsInv(g, s.store) && AttemptsInv(g, s.store) && HasHash(Subs(s.store, id), HashOf(tx))
    ensures id in s.store.intents
    ensures var i := s.store.intents[id];
            tx.sender == g.account && tx.nonce == i.nonce && tx.to == Target(g, i) && tx.data == i.calldata
  {
    var k :| 0 <= k < |Subs(s.store, id)| && Subs(s.store, id)[k].txHash == HashOf(tx);
    assert id in s.store.subs.Keys;
  }

  /** At most one attempt at an intent is ever mined. */
  lemma OneMinedAttempt(g: Config, s: Sys, id: ID, t: Tx, u: Tx)
    requires ChainInv(g, s.chain) && RecordsInv(g, s.store) && AttemptsInv(g, s.store)
    requires MinedAttempt(s, id, t) && MinedAttempt(s, id, u)
    ensures t == u
  {
    AttemptIsIntent(g, s, id, t);
    AttemptIsIntent(g, s, id, u);
    assert OwnMined(g, s.chain, t) && OwnMined(g, s.chain, u);
  }

  /** So a spent nonce has one outcome, whichever attempt is looked at first. */
  lemma OutcomeUnique(g: Config, s: Sys, id: ID, e: Fact, f: Fact)
    requires ChainInv(g, s.chain) && RecordsInv(g, s.store) && AttemptsInv(g, s.store)
    requires id in s.store.intents
    requires IsOutcome(g, s, s.store.intents[id], e) && IsOutcome(g, s, s.store.intents[id], f)
    ensures e == f
  {
    if e.txHash.HashOf? && f.txHash.HashOf? {
      OneMinedAttempt(g, s, id, e.txHash.tx, f.txHash.tx);
    }
  }

  // ----- every step keeps the invariants -----

  lemma InitialOutcomes(g: Config, s: Sys)
    requires s.store == EMPTY && s.origin.None? && s.chain.ours == {}
    requires ChainInv(g, s.chain) && BalanceInv(g, s.chain, s.opening)
    ensures Inv(g, s)
  {
  }

  /** An outcome stands as long as no attempt is added to a resolved intent. */
  lemma OutcomeStands(g: Config, s: Sys, t: Sys, id: ID, f: Fact)
    requires ChainInv(g, s.chain) && RecordsInv(g, s.store) && AttemptsInv(g, s.store) && ChainInv(g, t.chain)
    requires MaySettle(g, s, id, f) && Later(g, s.chain, t.chain)
    requires id in t.store.intents && t.store.intents[id] == s.store.intents[id]
    requires Subs(t.store, id) == Subs(s.store, id)
    ensures MaySettle(g, t, id, f)
  {
    forall tx | HasHash(Subs(s.store, id), HashOf(tx))
      ensures MinedAttempt(t, id, tx) <==> MinedAttempt(s, id, tx)
    {
      AttemptIsIntent(g, s, id, tx);
      if tx in s.chain.receipts { SpentIsSettled(g, s.chain, tx, s.chain.settled); }
      if tx in t.chain.receipts { SpentIsSettled(g, t.chain, tx, s.chain.settled); }
    }
    SpentGrows(g, s.chain, t.chain);
  }

  lemma SpentGrows(g: Config, c: Chain, d: Chain)
    requires ChainInv(g, c) && ChainInv(g, d) && Later(g, c, d)
    ensures Spent(c) <= Spent(d)
  {
    assert d.blocks[c.settled] == c.blocks[c.settled];
    assert d.blocks[c.settled].nonce <= d.blocks[d.settled].nonce;
  }

  lemma EnvKeepsRecords(g: Config, s: Sys, t: Sys)
    requires ChainInv(g, s.chain) && RecordsInv(g, s.store) && AttemptsInv(g, s.store)
    requires FactsInv(g, s) && FloorInv(s) && ScanInv(g, s)
    requires ChainInv(g, t.chain) && Later(g, s.chain, t.chain)
    requires t.store == s.store && t.origin == s.origin
    ensures FactsInv(g, t) && FloorInv(t) && ScanInv(g, t)
  {
    hide ChainInv, RecordsInv, AttemptsInv, FloorInv, ScanInv, IsOutcome, Later;
    forall id | id in t.store.facts ensures MaySettle(g, t, id, t.store.facts[id]) {
      OutcomeStands(g, s, t, id, t.store.facts[id]);
    }
    FloorStands(g, s, t);
    ScanStands(g, s, t);
  }

  lemma FloorStands(g: Config, s: Sys, t: Sys)
    requires ChainInv(g, s.chain) && FloorInv(s) && ChainInv(g, t.chain) && Later(g, s.chain, t.chain)
    requires t.store == s.store && t.origin == s.origin
    ensures FloorInv(t)
  {
    SpentGrows(g, s.chain, t.chain);
    hide NoncesInv, HonestInv, Accounted;
    if s.store.floor.Some? {
      assert s.chain.blocks[0] == t.chain.blocks[0];
    }
  }

  lemma ScanStands(g: Config, s: Sys, t: Sys)
    requires ScanInv(g, s) && Later(g, s.chain, t.chain) && t.store == s.store
    ensures ScanInv(g, t)
  {
    DepositsFrozen(g, s.chain, t.chain);
    hide DepositAt, Later;
    assert s.chain.settled <= t.chain.settled by { SettledGrows(g, s.chain, t.chain); }
  }

  lemma SettledGrows(g: Config, c: Chain, d: Chain)
    requires Later(g, c, d)
    ensures c.settled <= d.settled
  {
  }

  /** Settled deposits neither appear nor disappear. */
  lemma DepositsFrozen(g: Config, c: Chain, d: Chain)
    requires Later(g, c, d)
    ensures forall k :: DepositAt(g, c, k).Some? && DepositAt(g, c, k).value.block <= c.settled
                        ==> DepositAt(g, d, k) == DepositAt(g, c, k)
    ensures forall k :: DepositAt(g, d, k).Some? && DepositAt(g, d, k).value.block <= c.settled
                        ==> DepositAt(g, c, k) == DepositAt(g, d, k)
  {
  }

  /** The cached facts survive any growth of the records that leaves resolved
      intents alone. */
  lemma FactsSurvive(g: Config, s: Sys, t: Sys)
    requires ChainInv(g, s.chain) && RecordsInv(g, s.store) && AttemptsInv(g, s.store) && FactsInv(g, s)
    requires t.chain == s.chain && t.store.facts == s.store.facts
    requires forall id :: id in s.store.intents ==> id in t.store.intents && t.store.intents[id] == s.store.intents[id]
    requires forall id :: id in s.store.facts ==> Subs(t.store, id) == Subs(s.store, id)
    ensures FactsInv(g, t)
  {
    LaterRefl(g, s.chain);
    forall id | id in t.store.facts ensures MaySettle(g, t, id, t.store.facts[id]) {
      OutcomeStands(g, s, t, id, t.store.facts[id]);
    }
  }

  lemma LaterRefl(g: Config, c: Chain)
    requires BlocksInv(c)
    ensures Later(g, c, c)
  {
  }

  lemma FloorSurvives(s: Sys, t: Sys)
    requires FloorInv(s) && t.chain == s.chain && t.origin == s.origin && t.store.floor == s.store.floor
    requires t.store.intents == s.store.intents
    requires forall id :: id in s.store.facts ==> id in t.store.facts && t.store.facts[id] == s.store.facts[id]
    ensures FloorInv(t)
  {
    AccountedSurvives(s.store, t.store);
  }

  lemma ScanSurvives(g: Config, s: Sys, t: Sys)
    requires ScanInv(g, s) && t.chain == s.chain
    requires t.store.deposits == s.store.deposits && t.store.cursor == s.store.cursor
    ensures ScanInv(g, t)
  {
  }

  lemma AccountedSurvives(r: Records, q: Records)
    requires forall id :: id in r.intents ==> id in q.intents && q.intents[id] == r.intents[id]
    requires forall id :: id in r.facts ==> id in q.facts && q.facts[id] == r.facts[id]
    ensures forall n :: Accounted(r, n) ==> Accounted(q, n)
  {
    forall n | Accounted(r, n) ensures Accounted(q, n) {
      var id :| id in r.intents && r.intents[id].nonce == n && id in r.facts && !r.facts[id].txHash.ZeroHash?;
      assert id in q.intents && q.intents[id].nonce == n && id in q.facts;
    }
  }

  lemma RecordedSurvives(r: Records, q: Records)
    requires forall id :: id in r.subs ==> id in q.subs && r.subs[id] <= q.subs[id]
    ensures forall tx :: Recorded(r, tx) ==> Recorded(q, tx)
  {
    forall tx | Recorded(r, tx) ensures Recorded(q, tx) {
      var id :| id in r.subs && HasHash(r.subs[id], HashOf(tx));
      var k :| 0 <= k < |r.subs[id]| && r.subs[id][k].txHash == HashOf(tx);
      assert q.subs[id][k] == r.subs[id][k];
      assert HasHash(q.subs[id], HashOf(tx));
    }
  }

  lemma NewIntentFits(g: Config, r: Records, i: Intent, q: Records)
    requires RecordsInv(g, r) && AttemptsInv(g, r) && WellBuilt(g, i) && i.id !in r.intents && AllResolved(r)
    requires forall id :: id in r.intents ==> r.intents[id].nonce < i.nonce
    requires q == PutIntent(r, i)
    ensures q == r.(intents := r.intents[i.id := i])
    ensures RecordsInv(g, q) && AttemptsInv(g, q) && OneInFlight(q)
  {
    assert i.id !in r.subs.Keys;
    forall id | id in q.intents ensures AttemptsOf(g, q.intents[id], Subs(q, id)) {
      if id != i.id { assert AttemptsOf(g, r.intents[id], Subs(r, id)); }
    }
  }

  lemma RecordIntentKeepsInv(g: Config, s: Sys, i: Intent)
    requires Inv(g, s) && MayRecord(g, s, i)
    ensures Inv(g, Apply(g, s, RecordIntent(i)))
  {
    hide ChainInv, BalanceInv, RecordsInv, AttemptsInv, OneInFlight, FactsInv, ScanInv, WellBuilt, IsOutcome;
    var t := Apply(g, s, RecordIntent(i));
    NewIntentFits(g, s.store, i, t.store);
    FactsSurvive(g, s, t);
    AccountedSurvives(s.store, t.store);
    assert FloorInv(t);
    ScanSurvives(g, s, t);
  }

  lemma NewAttemptFits(g: Config, s: Sys, id: ID, sub: Submission, q: Records)
    requires RecordsInv(g, s.store) && AttemptsInv(g, s.store) && MayAttempt(g, s, id, sub)
    requires q == AppendSubmission(s.store, id, sub)
    ensures RecordsInv(g, q) && AttemptsInv(g, q)
  {
    forall a | a in q.intents ensures AttemptsOf(g, q.intents[a], Subs(q, a)) {
      assert AttemptsOf(g, s.store.intents[a], Subs(s.store, a));
      if a == id {
        EscalatingAppend(Subs(s.store, a), sub);
      }
    }
  }

  lemma RecordAttemptKeepsInv(g: Config, s: Sys, id: ID, sub: Submission)
    requires Inv(g, s) && MayAttempt(g, s, id, sub)
    ensures Inv(g, Apply(g, s, RecordAttempt(id, sub)))
  {
    hide ChainInv, BalanceInv, RecordsInv, AttemptsInv, FactsInv, FloorInv, ScanInv, IsOutcome, FeeRule;
    var t := Apply(g, s, RecordAttempt(id, sub));
    NewAttemptFits(g, s, id, sub, t.store);
    FactsSurvive(g, s, t);
    FloorSurvives(s, t);
    RecordedSurvives(s.store, t.store);
    ScanSurvives(g, s, t);
  }

  lemma SentBelongsToAccount(g: Config, s: Sys, tx: Tx)
    requires RecordsInv(g, s.store) && AttemptsInv(g, s.store) && Recorded(s.store, tx)
    ensures tx.sender == g.account
  {
    var id :| id in s.store.subs && HasHash(s.store.subs[id], HashOf(tx));
    AttemptIsIntent(g, s, id, tx);
  }

  lemma SendKeepsInv(g: Config, s: Sys, tx: Tx)
    requires Inv(g, s) && Recorded(s.store, tx)
    ensures Inv(g, Apply(g, s, Send(tx))) && Later(g, s.chain, Apply(g, s, Send(tx)).chain)
  {
    hide ChainInv, BalanceInv, RecordsInv, AttemptsInv, OneInFlight, FactsInv, FloorInv, ScanInv, Later;
    var t := s.(chain := Broadcast(s.chain, tx));
    SentBelongsToAccount(g, s, tx);
    BroadcastKeepsInv(g, s.chain, tx, s.opening);
    EnvKeepsRecords(g, s, t);
    assert WriteAhead(t);
  }

  lemma FactFits(g: Config, s: Sys, id: ID, f: Fact, t: Sys)
    requires ChainInv(g, s.chain) && RecordsInv(g, s.store) && AttemptsInv(g, s.store) && FactsInv(g, s)
    requires MaySettle(g, s, id, f) && t == Apply(g, s, RecordFact(id, f))
    ensures FactsInv(g, t)
  {
    LaterRefl(g, s.chain);
    forall a | a in t.store.facts ensures MaySettle(g, t, a, t.store.facts[a]) {
      assert MaySettle(g, s, a, t.store.facts[a]);
      OutcomeStands(g, s, t, a, t.store.facts[a]);
    }
  }

  lemma FactKeepsRecords(g: Config, r: Records, id: ID, f: Fact)
    requires RecordsInv(g, r) && AttemptsInv(g, r) && OneInFlight(r) && id in r.intents
    ensures var q := PutFact(r, id, f); RecordsInv(g, q) && AttemptsInv(g, q) && OneInFlight(q)
  {
    var q := PutFact(r, id, f);
    assert OneInFlight(q) by {
      hide Keyed, WellBuilt, AttemptsOf;
      assert PendingIds(q) <= PendingIds(r);
    }
    hide OneInFlight, AttemptsOf, WellBuilt;
    assert forall a :: Subs(q, a) == Subs(r, a);
  }

  /** What only the scan or the floor writes does not concern the operations. */
  lemma OperationsUntouched(g: Config, r: Records, q: Records)
    requires RecordsInv(g, r) && AttemptsInv(g, r) && OneInFlight(r)
    requires q == r.(deposits := q.deposits, cursor := q.cursor, floor := q.floor)
    ensures RecordsInv(g, q) && AttemptsInv(g, q) && OneInFlight(q)
  {
    assert forall a :: Subs(q, a) == Subs(r, a);
    assert PendingIds(q) == PendingIds(r);
  }

  lemma RecordFactKeepsInv(g: Config, s: Sys, id: ID, f: Fact)
    requires Inv(g, s) && MaySettle(g, s, id, f)
    ensures Inv(g, Apply(g, s, RecordFact(id, f)))
  {
    hide ChainInv, BalanceInv, RecordsInv, AttemptsInv, OneInFlight, FactsInv, FloorInv, ScanInv, IsOutcome;
    var t := Apply(g, s, RecordFact(id, f));
    FactKeepsRecords(g, s.store, id, f);
    RecordedSurvives(s.store, t.store);
    FactFits(g, s, id, f, t);
    FloorSurvives(s, t);
    ScanSurvives(g, s, t);
  }

  lemma ScanWriteKeepsRest(g: Config, s: Sys, t: Sys)
    requires Inv(g, s) && ScanInv(g, t)
    requires t == s.(store := s.store.(deposits := t.store.deposits, cursor := t.store.cursor))
    ensures Inv(g, t)
  {
    hide ChainInv, BalanceInv, RecordsInv, AttemptsInv, OneInFlight, FactsInv, FloorInv, ScanInv;
    OperationsUntouched(g, s.store, t.store);
    RecordedSurvives(s.store, t.store);
    FactsSurvive(g, s, t);
    FloorSurvives(s, t);
  }

  lemma RecordDepositKeepsScan(g: Config, s: Sys, k: LogKey, d: Deposit, t: Sys)
    requires ScanInv(g, s) && DepositAt(g, s.chain, k) == Some(d) && d.block <= s.chain.settled
    requires t == Apply(g, s, RecordDeposit(k, d))
    ensures ScanInv(g, t)
  {
    if s.store.cursor.Some? {
      assert ScannedTo(g, s, s.store.cursor.value);
    }
  }

  lemma MoveCursorKeepsScan(g: Config, s: Sys, b: nat, t: Sys)
    requires ScanInv(g, s) && g.fromBlock <= b <= s.chain.settled && ScannedTo(g, s, b)
    requires t == Apply(g, s, MoveCursor(b))
    ensures ScanInv(g, t)
  {
    if s.store.cursor.Some? {
      assert ScannedTo(g, s, s.store.cursor.value);
    }
  }

  lemma MoveFloorKeepsInv(g: Config, s: Sys, n: nat)
    requires Inv(g, s) && MayMoveFloor(s, n)
    ensures Inv(g, Apply(g, s, MoveFloor(n)))
  {
    hide ChainInv, BalanceInv, RecordsInv, AttemptsInv, OneInFlight, FactsInv, ScanInv;
    var t := Apply(g, s, MoveFloor(n));
    OperationsUntouched(g, s.store, t.store);
    RecordedSurvives(s.store, t.store);
    FactsSurvive(g, s, t);
    AccountedSurvives(s.store, t.store);
    assert FloorInv(t);
    ScanSurvives(g, s, t);
  }

  /** What is recorded stays, what settled stays, and a resolved intent gets no
      further attempts. */
  ghost predicate SysLater(g: Config, s: Sys, t: Sys) {
    && Grows(s.store, t.store) && Later(g, s.chain, t.chain)
    && t.opening == s.opening && (s.origin.Some? ==> t.origin == s.origin)
    && (forall id :: id in s.store.facts ==> Subs(t.store, id) == Subs(s.store, id))
  }

  lemma StepKeepsInv(g: Config, s: Sys, st: Step)
    requires Inv(g, s) && Enabled(g, s, st)
    ensures Inv(g, Apply(g, s, st))
  {
    hide ChainInv, BalanceInv, RecordsInv, AttemptsInv, OneInFlight, FactsInv, FloorInv, ScanInv, MayRecord,
        MayAttempt, MaySettle, MayMoveFloor, Later;
    match st
    case Env(e) =>
      EnvKeepsInv(g, s.chain, e);
      EnvKeepsBalance(g, s.chain, s.opening, e);
      EnvKeepsRecords(g, s, Apply(g, s, st));
    case RecordIntent(i) => RecordIntentKeepsInv(g, s, i);
    case RecordAttempt(id, sub) => RecordAttemptKeepsInv(g, s, id, sub);
    case Send(tx) => SendKeepsInv(g, s, tx);
    case RecordFact(id, f) => RecordFactKeepsInv(g, s, id, f);
    case RecordDeposit(k, d) =>
      RecordDepositKeepsScan(g, s, k, d, Apply(g, s, st));
      ScanWriteKeepsRest(g, s, Apply(g, s, st));
    case MoveCursor(b) =>
      MoveCursorKeepsScan(g, s, b, Apply(g, s, st));
      ScanWriteKeepsRest(g, s, Apply(g, s, st));
    case MoveFloor(n) => MoveFloorKeepsInv(g, s, n);
  }

  /** The durable write a step makes. */
  function StoreCall(st: Step): Option<Call> {
    match st
    case RecordIntent(i) => Some(CallPutIntent(i))
    case RecordAttempt(id, sub) => Some(CallAppend(id, sub))
    case RecordFact(id, f) => Some(CallPutFact(id, f))
    case RecordDeposit(k, d) => Some(CallPutDeposit(k, d))
    case MoveCursor(b) => Some(CallPutCursor(b))
    case MoveFloor(n) => Some(CallPutFloor(n))
    case _ => None
  }

  lemma StoreStepIsLater(g: Config, s: Sys, st: Step)
    requires BlocksInv(s.chain) && (s.store.floor.None? ==> s.origin.None?)
    requires StoreCall(st).Some? && (st.RecordAttempt? ==> st.id !in s.store.facts)
    ensures SysLater(g, s, Apply(g, s, st))
  {
    DoGrows(s.store, StoreCall(st).value);
    LaterRefl(g, s.chain);
    assert Apply(g, s, st).store == Do(s.store, StoreCall(st).value);
  }

  lemma StepIsLater(g: Config, s: Sys, st: Step)
    requires Inv(g, s) && Enabled(g, s, st)
    ensures SysLater(g, s, Apply(g, s, st))
  {
    hide NoncesInv, HonestInv, BalanceInv, RecordsInv, AttemptsInv, WriteAhead, OneInFlight, FactsInv, ScanInv,
        MayRecord, MaySettle, Later, Recorded;
    if StoreCall(st).Some? {
      StoreStepIsLater(g, s, st);
    } else if st.Env? {
      EnvKeepsInv(g, s.chain, st.e);
    } else {
      SendKeepsInv(g, s, st.tx);
    }
  }

  lemma SysLaterTrans(g: Config, s: Sys, t: Sys, u: Sys)
    requires SysLater(g, s, t) && SysLater(g, t, u)
    ensures SysLater(g, s, u)
  {
    LaterTrans(g, s.chain, t.chain, u.chain);
    forall id | id in s.store.subs ensures id in u.store.subs && s.store.subs[id] <= u.store.subs[id] {
      assert s.store.subs[id] <= t.store.subs[id] <= u.store.subs[id];
    }
  }

  // ----- runs -----

  /** A fresh store beside a chain with any history. Whatever this key did before is
      foreign: the rail has broadcast nothing. */
  ghost predicate Init(g: Config, s: Sys) {
    s.store == EMPTY && s.origin.None? && s.chain.ours == {}
    && ChainInv(g, s.chain) && BalanceInv(g, s.chain, s.opening) && NativeInv(s.chain)
  }

  ghost predicate Next(g: Config, s: Sys, t: Sys) {
    exists st :: Enabled(g, s, st) && t == Apply(g, s, st)
  }

  ghost predicate StepAt(g: Config, trace: seq<Sys>, k: nat) {
    k + 1 < |trace| ==> Next(g, trace[k], trace[k + 1])
  }

  ghost predicate Run(g: Config, trace: seq<Sys>) {
    trace != [] && Init(g, trace[0]) && forall k: nat :: StepAt(g, trace, k)
  }

  /** Every state of every run satisfies the invariants. */
  lemma {:induction false} RunKeepsInv(g: Config, trace: seq<Sys>, k: nat)
    requires Run(g, trace) && k < |trace|
    ensures Inv(g, trace[k])
  {
    hide Inv, Enabled, Apply, ChainInv, BalanceInv;
    if k == 0 {
      InitialOutcomes(g, trace[0]);
    } else {
      RunKeepsInv(g, trace, k - 1);
      assert StepAt(g, trace, k - 1);
      var st :| Enabled(g, trace[k - 1], st) && trace[k] == Apply(g, trace[k - 1], st);
      StepKeepsInv(g, trace[k - 1], st);
    }
  }

  lemma StepKeepsNative(g: Config, s: Sys, st: Step)
    requires BlocksInv(s.chain) && NativeInv(s.chain) && Enabled(g, s, st)
    ensures NativeInv(Apply(g, s, st).chain)
  {
    hide BlocksInv, EnvEnabled, EnvApply, MayRecord, MayAttempt, MaySettle, MayMoveFloor;
    if st.Env? {
      hide NativeInv;
      EnvKeepsNative(g, s.chain, st.e);
    }
  }

  lemma {:induction false} RunKeepsNative(g: Config, trace: seq<Sys>, k: nat)
    requires Run(g, trace) && k < |trace|
    ensures NativeInv(trace[k].chain)
  {
    if k > 0 {
      RunKeepsNative(g, trace, k - 1);
      RunKeepsInv(g, trace, k - 1);
      assert BlocksInv(trace[k - 1].chain) && StepAt(g, trace, k - 1);
      hide NativeInv, Inv, Enabled, Apply, Run;
      var st :| Enabled(g, trace[k - 1], st) && trace[k] == Apply(g, trace[k - 1], st);
      StepKeepsNative(g, trace[k - 1], st);
    }
  }

  lemma ExtendRun(g: Config, trace: seq<Sys>, st: Step)
    requires Run(g, trace) && Enabled(g, trace[|trace| - 1], st)
    ensures Run(g, trace + [Apply(g, trace[|trace| - 1], st)])
  {
    hide Enabled, Apply, Init;
    var last := trace[|trace| - 1];
    var more := trace + [Apply(g, last, st)];
    assert Next(g, last, Apply(g, last, st));
    forall k: nat ensures StepAt(g, more, k) {
      assert StepAt(g, trace, k);
    }
  }

  lemma RunStepIsLater(g: Config, trace: seq<Sys>, k: nat)
    requires Run(g, trace) && k < |trace|
    ensures SysLater(g, trace[k], trace[k])
    ensures k + 1 < |trace| ==> SysLater(g, trace[k], trace[k + 1])
  {
    hide BalanceInv, RecordsInv, AttemptsInv, WriteAhead, OneInFlight, FactsInv, FloorInv, ScanInv, Enabled, Apply,
        Init, Later;
    RunKeepsInv(g, trace, k);
    LaterRefl(g, trace[k].chain);
    if k + 1 < |trace| {
      assert StepAt(g, trace, k);
      var st :| Enabled(g, trace[k], st) && trace[k + 1] == Apply(g, trace[k], st);
      StepIsLater(g, trace[k], st);
    }
  }

  ghost predicate GrowsAt(g: Config, trace: seq<Sys>, k: nat) {
    && (k < |trace| ==> SysLater(g, trace[k], trace[k]))
    && (k + 1 < |trace| ==> SysLater(g, trace[k], trace[k + 1]))
  }

  lemma {:induction false} LinksCompose(g: Config, trace: seq<Sys>, j: nat, k: nat)
    requires j <= k < |trace| && forall n: nat :: GrowsAt(g, trace, n)
    ensures SysLater(g, trace[j], trace[k])
    decreases k
  {
    if j == k {
      assert GrowsAt(g, trace, j);
    } else {
      LinksCompose(g, trace, j, k - 1);
      assert GrowsAt(g, trace, k - 1);
      SysLaterTrans(g, trace[j], trace[k - 1], trace[k]);
    }
  }

  /** Along every run nothing recorded or settled is ever lost or changed. */
  lemma RunOnlyGrows(g: Config, trace: seq<Sys>, j: nat, k: nat)
    requires Run(g, trace) && j <= k < |trace|
    ensures SysLater(g, trace[j], trace[k])
  {
    forall n: nat ensures GrowsAt(g, trace, n) {
      if n < |trace| { RunStepIsLater(g, trace, n); }
    }
    LinksCompose(g, trace, j, k);
  }
}
