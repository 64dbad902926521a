/** The chain as one account sees it: what was broadcast under its key, what was
    mined with which receipt and logs, its nonce and token balance after every
    block, and a settled head that only grows. The trust base of requirements.md is
    in one predicate, Honest. */
module Chain {
  import opened Types
  import opened Sums
  import Fees

  datatype Log = Log(address: Address, topics: seq<nat>, data: seq<nat>, removed: bool)

  /** keccak256("Transfer(address,address,uint256)"). */
  const TOPIC_TRANSFER: nat := 0xddf252ad1be2c89b_69c2b068fc378daa_952ba7f163c4a116_28f55a4df523b3ef

  function AddressOf(word: nat): Address { word % ADDRESS_LIMIT }

  function BigEndian(bytes: seq<nat>): nat {
    if bytes == [] then 0 else BigEndian(bytes[..|bytes| - 1]) * 256 + bytes[|bytes| - 1]
  }

  /** The last n bytes of a number, most significant first. */
  function Bytes(v: nat, n: nat): (b: seq<nat>)
    ensures |b| == n
  {
    if n == 0 then [] else Bytes(v / 256, n - 1) + [v % 256]
  }

  /** A number that fits in its bytes can be read back from them. */
  lemma {:induction false} BytesRead(v: nat, n: nat)
    requires v < Fees.Pow(256, n)
    ensures BigEndian(Bytes(v, n)) == v
  {
    if n > 0 {
      var b := Bytes(v, n);
      assert b[..n - 1] == Bytes(v / 256, n - 1) && b[n - 1] == v % 256;
      BytesRead(v / 256, n - 1);
    }
  }

  lemma Powers()
    ensures Fees.Pow(256, 8) == 0x1_0000_0000_0000_0000 && Fees.Pow(256, 32) == UINT256_LIMIT
  {
    assert Fees.Pow(256, 4) == 0x1_0000_0000;
    assert Fees.Pow(256, 8) == 0x1_0000_0000_0000_0000;
    assert Fees.Pow(256, 16) == 0x1_0000_0000_0000_0000_0000_0000_0000_0000;
    assert Fees.Pow(256, 24) == 0x1_0000_0000_0000_0000_0000_0000_0000_0000_0000_0000_0000_0000;
  }

  /** The last 32 bytes of a log's data. */
  function Word(l: Log): nat
    requires |l.data| >= 32
  {
    BigEndian(l.data[|l.data| - 32..])
  }

  /** A log of the token that moves this amount between these two (venue.go:339). */
  predicate TransferLog(l: Log, token: Address, from: Address, to: Address, amount: int) {
    && l.address == token && |l.topics| == 3 && l.topics[0] == TOPIC_TRANSFER
    && AddressOf(l.topics[1]) == from && AddressOf(l.topics[2]) == to
    && |l.data| >= 32 && Word(l) == amount
  }

  /** Whether a log is a transfer of the token sent by `from` (venue.go:319). */
  predicate SentLog(l: Log, token: Address, from: Address) {
    && !l.removed && l.address == token && |l.topics| == 3 && l.topics[0] == TOPIC_TRANSFER
    && AddressOf(l.topics[1]) == from && |l.data| >= 32
  }

  function SentValues(logs: seq<Log>, token: Address, from: Address): seq<int> {
    if logs == [] then [] else
      var rest := SentValues(logs[..|logs| - 1], token, from);
      var l := logs[|logs| - 1];
      if SentLog(l, token, from) then rest + [Word(l)] else rest
  }

  method SentTransferValues(logs: seq<Log>, token: Address, from: Address) returns (found: seq<int>)
    ensures found == SentValues(logs, token, from)
  {
    found := [];
    var i := 0;
    while i < |logs|
      invariant 0 <= i <= |logs|
      invariant found == SentValues(logs[..i], token, from)
    {
      assert logs[..i + 1][..i] == logs[..i];
      if SentLog(logs[i], token, from) {
        found := found + [Word(logs[i])];
      }
      i := i + 1;
    }
    assert logs[..i] == logs;
  }

  /** What the deposit query asks the node for (status.go:403-412). */
  predicate FilterMatch(g: Config, l: Log) {
    l.address == g.token && |l.topics| >= 3 && l.topics[0] == TOPIC_TRANSFER && l.topics[2] == g.account
  }

  /** What the scanner keeps of an answer (status.go:417-425). */
  predicate Incoming(g: Config, l: Log) {
    && !l.removed && |l.topics| == 3 && |l.data| >= 32
    && AddressOf(l.topics[1]) != g.account && Word(l) != 0
  }

  /** The effect of one log on the account's token balance. */
  function In(g: Config, l: Log): nat {
    if FilterMatch(g, l) && Incoming(g, l) then Word(l) else 0
  }

  function Out(g: Config, l: Log): nat {
    if SentLog(l, g.token, g.account) && AddressOf(l.topics[2]) != g.account then Word(l) else 0
  }

  function InSum(g: Config, logs: seq<Log>): nat {
    if logs == [] then 0 else InSum(g, logs[..|logs| - 1]) + In(g, logs[|logs| - 1])
  }

  function OutSum(g: Config, logs: seq<Log>): nat {
    if logs == [] then 0 else OutSum(g, logs[..|logs| - 1]) + Out(g, logs[|logs| - 1])
  }

  datatype Receipt = Receipt(block: nat, success: bool, firstIndex: nat, logs: seq<Log>)

  /** When a block was made, and the account's state after it: its nonce, its token
      balance, its native reserve, and how much of that others have sent it so far. */
  datatype BlockState = BlockState(time: nat, nonce: nat, balance: int, native: nat, funded: nat)

  datatype Chain = Chain(
    ours: set<Tx>,            // broadcast by this rail
    foreign: set<Tx>,         // signed with this key by anything else
    receipts: map<Tx, Receipt>,
    spender: map<nat, Tx>,    // which transaction spent each nonce of the account
    blocks: seq<BlockState>,
    settled: nat)

  /** How the token moves a balance: EIP-20 requires a Transfer event for every
      move, so the net of a receipt's events is the change. */
  function LogNet(g: Config, l: Log): int {
    if l.address == g.token && |l.topics| == 3 && l.topics[0] == TOPIC_TRANSFER && |l.data| >= 32 then
      (if AddressOf(l.topics[2]) == g.account then Word(l) else 0)
      - (if AddressOf(l.topics[1]) == g.account then Word(l) else 0)
    else 0
  }

  function Net(g: Config, logs: seq<Log>): int {
    if logs == [] then 0 else Net(g, logs[..|logs| - 1]) + LogNet(g, logs[|logs| - 1])
  }

  predicate IsTransfer(g: Config, l: Log) {
    l.address == g.token && |l.topics| > 0 && l.topics[0] == TOPIC_TRANSFER
  }

  predicate WellFormed(l: Log) {
    |l.topics| == 3 && |l.data| >= 32 && l.topics[1] < ADDRESS_LIMIT && l.topics[2] < ADDRESS_LIMIT
  }

  /** The trust base on one mined transaction. A reverted one has no logs. The token
      is a correct EIP-20: its events are well formed, its transfer moves exactly
      the amount or reports failure and moves nothing, and nobody else's
      transaction spends the account's money. A refill reverts once its deadline has
      passed. How many transfers a refill makes, and for how much, is not trusted. */
  predicate Honest(g: Config, tx: Tx, time: nat, success: bool, logs: seq<Log>) {
    && (!success ==> logs == [])
    && (forall l :: l in logs ==> !l.removed)
    && (forall l :: l in logs && IsTransfer(g, l) ==> WellFormed(l))
    && (tx.sender != g.account ==>
          forall l :: l in logs && SentLog(l, g.token, g.account) ==> Word(l) == 0)
    && (tx.sender == g.account && tx.data.TransferCall? && tx.to == g.token ==>
          || (forall l :: l in logs ==> !IsTransfer(g, l))
          || PaidOnce(g, logs, tx.data.to, tx.data.amount))
    && (success && tx.sender == g.account && tx.data.RefillCall? ==> time <= tx.data.deadline)
  }

  predicate PaidOnce(g: Config, logs: seq<Log>, to: Address, amount: int) {
    exists k :: 0 <= k < |logs| && TransferLog(logs[k], g.token, g.account, to, amount)
                && forall j :: 0 <= j < |logs| && j != k ==> !IsTransfer(g, logs[j])
  }

  /** What a venue that takes its price once, within the bound, leaves in the logs. */
  predicate BoughtOnce(g: Config, logs: seq<Log>, maxInput: int) {
    exists k :: 0 <= k < |logs| && SentLog(logs[k], g.token, g.account)
                && AddressOf(logs[k].topics[2]) != g.account && Word(logs[k]) <= maxInput
                && forall j :: 0 <= j < |logs| && j != k ==> !SentLog(logs[j], g.token, g.account)
  }

  function Head(c: Chain): BlockState
    requires c.blocks != []
  {
    c.blocks[|c.blocks| - 1]
  }

  /** The account's nonce at a block. */
  function NonceAt(c: Chain, block: nat): nat {
    if block < |c.blocks| then c.blocks[block].nonce else 0
  }

  /** The nonces spent at the settled head. */
  function Spent(c: Chain): nat { NonceAt(c, c.settled) }

  function MinedUpTo(c: Chain, block: nat): set<Tx> {
    set tx | tx in c.receipts && c.receipts[tx].block <= block
  }

  function NetOf(g: Config, c: Chain): Tx -> int {
    (tx: Tx) => if tx in c.receipts then Net(g, c.receipts[tx].logs) else 0
  }

  ghost predicate OwnMined(g: Config, c: Chain, tx: Tx) {
    tx in c.receipts && tx.sender == g.account
  }

  ghost predicate BlocksInv(c: Chain) {
    && c.settled < |c.blocks|
    && (forall i, j :: 0 <= i <= j < |c.blocks| ==> c.blocks[i].nonce <= c.blocks[j].nonce)
    && (forall i, j :: 0 <= i <= j < |c.blocks| ==> c.blocks[i].time <= c.blocks[j].time)
    && (forall tx :: tx in c.receipts ==> c.receipts[tx].block < |c.blocks|)
  }

  ghost predicate HonestInv(g: Config, c: Chain) {
    forall tx :: tx in c.receipts ==>
      && c.receipts[tx].block < |c.blocks|
      && Honest(g, tx, c.blocks[c.receipts[tx].block].time, c.receipts[tx].success, c.receipts[tx].logs)
  }

  /** The nonce counts as spent from exactly this block on. */
  ghost predicate SpentFrom(c: Chain, nonce: nat, block: nat) {
    forall b :: 0 <= b < |c.blocks| ==> (nonce < c.blocks[b].nonce <==> block <= b)
  }

  /** The account's own transactions spend nonces one each, in order, and each was
      broadcast by somebody. */
  ghost predicate OwnInv(g: Config, c: Chain) {
    forall tx :: OwnMined(g, c, tx) ==>
      && (tx in c.ours || tx in c.foreign)
      && tx.nonce in c.spender && c.spender[tx.nonce] == tx
      && SpentFrom(c, tx.nonce, c.receipts[tx].block)
  }

  ghost predicate SpenderInv(g: Config, c: Chain) {
    && (forall n :: n in c.spender ==> c.spender[n].nonce == n && OwnMined(g, c, c.spender[n]))
    && (c.blocks != [] ==> forall n :: c.blocks[0].nonce <= n < Head(c).nonce ==> n in c.spender)
  }

  ghost predicate NoncesInv(g: Config, c: Chain) {
    && (forall tx :: tx in c.ours || tx in c.foreign ==> tx.sender == g.account)
    && OwnInv(g, c) && SpenderInv(g, c)
  }

  ghost predicate ChainInv(g: Config, c: Chain) {
    BlocksInv(c) && NoncesInv(g, c) && HonestInv(g, c)
  }

  /** The balance after each block is the opening one plus what was moved up to it. */
  ghost predicate BalanceInv(g: Config, c: Chain, opening: int) {
    forall b :: 0 <= b < |c.blocks| ==>
      c.blocks[b].balance == opening + Sum(MinedUpTo(c, b), NetOf(g, c))
  }

  /** What others sent only adds up, and everything else that happens to the native
      balance is the work of the account's own transactions: two blocks between which
      it spent no nonce differ by what others sent. */
  ghost predicate NativeInv(c: Chain) {
    forall i, j :: 0 <= i <= j < |c.blocks| ==>
      && c.blocks[i].funded <= c.blocks[j].funded
      && (c.blocks[i].nonce == c.blocks[j].nonce ==>
            c.blocks[j].native - c.blocks[i].native == c.blocks[j].funded - c.blocks[i].funded)
  }

  datatype EnvStep =
    | NewBlock(time: nat)
    | Mine(tx: Tx, success: bool, firstIndex: nat, logs: seq<Log>, native: nat)
    | Reorg(keep: nat)
    | Settle(block: nat)
    | ForeignBroadcast(signed: Tx)

  /** Nobody else's transaction takes native currency from the account, and one the rail
      signed sends none: it costs at most its fee cap for its gas limit. */
  predicate PaysOnlyGas(g: Config, c: Chain, tx: Tx, native: nat)
    requires c.blocks != []
  {
    native < Head(c).native ==>
      tx.sender == g.account && (tx in c.ours ==> Head(c).native - native <= tx.gas * tx.feeCap)
  }

  /** Anything broadcast may be mined, in any order the nonces allow, in a block
      above the settled head; anyone may send the account money; and any blocks above
      the settled head may be abandoned, with everything mined in them. */
  predicate EnvEnabled(g: Config, c: Chain, e: EnvStep) {
    && c.settled < |c.blocks|
    && match e
       case NewBlock(time) => time >= Head(c).time
       case Mine(tx, success, _, logs, native) =>
         && tx !in c.receipts && c.settled < |c.blocks| - 1
         && Honest(g, tx, Head(c).time, success, logs) && PaysOnlyGas(g, c, tx, native)
         && (tx.sender == g.account ==> (tx in c.ours || tx in c.foreign) && tx.nonce == Head(c).nonce)
       case Reorg(keep) => c.settled <= keep < |c.blocks|
       case Settle(block) => c.settled <= block < |c.blocks|
       case ForeignBroadcast(tx) => tx.sender == g.account
  }

  function EnvApply(g: Config, c: Chain, e: EnvStep): Chain
    requires c.blocks != []
  {
    match e
    case NewBlock(time) => c.(blocks := c.blocks + [Head(c).(time := time)])
    case Mine(tx, success, firstIndex, logs, native) =>
      var top := |c.blocks| - 1;
      var own := tx.sender == g.account;
      c.(receipts := c.receipts[tx := Receipt(top, success, firstIndex, logs)],
         spender := if own then c.spender[tx.nonce := tx] else c.spender,
         blocks := c.blocks[top := BlockState(Head(c).time, Head(c).nonce + (if own then 1 else 0),
                                              Head(c).balance + Net(g, logs), native,
                                              if own || native < Head(c).native then Head(c).funded
                                              else Head(c).funded + (native - Head(c).native))])
    case Reorg(keep) =>
      if keep >= |c.blocks| then c else
        c.(receipts := map tx | tx in c.receipts && c.receipts[tx].block <= keep :: c.receipts[tx],
           spender := map n | n in c.spender && n < c.blocks[keep].nonce :: c.spender[n],
           blocks := c.blocks[..keep + 1])
    case Settle(block) => c.(settled := block)
    case ForeignBroadcast(tx) => c.(foreign := c.foreign + {tx})
  }

  /** What can be relied on later: the settled past is frozen, and nothing is added
      to it. Above it, anything may have changed. */
  ghost predicate Later(g: Config, c: Chain, d: Chain) {
    && c.ours <= d.ours && c.foreign <= d.foreign
    && c.settled <= d.settled && c.settled < |c.blocks| && c.settled < |d.blocks|
    && (forall b :: 0 <= b <= c.settled ==> d.blocks[b] == c.blocks[b])
    && (forall tx :: tx in c.receipts && c.receipts[tx].block <= c.settled ==>
          tx in d.receipts && d.receipts[tx] == c.receipts[tx])
    && (forall tx :: tx in d.receipts && d.receipts[tx].block <= c.settled ==>
          tx in c.receipts && c.receipts[tx] == d.receipts[tx])
  }

  lemma LaterTrans(g: Config, c: Chain, d: Chain, e: Chain)
    requires Later(g, c, d) && Later(g, d, e)
    ensures Later(g, c, e)
  {
  }

  lemma MineKeepsBlocks(g: Config, c: Chain, tx: Tx, r: Receipt, native: nat, d: Chain)
    requires BlocksInv(c) && tx !in c.receipts && c.settled < |c.blocks| - 1 && r.block == |c.blocks| - 1
    requires d == EnvApply(g, c, Mine(tx, r.success, r.firstIndex, r.logs, native))
    ensures BlocksInv(d) && Later(g, c, d)
  {
    hide Net;
  }

  lemma MineKeepsNonces(g: Config, c: Chain, tx: Tx, r: Receipt, native: nat, d: Chain)
    requires BlocksInv(c) && NoncesInv(g, c) && tx !in c.receipts && c.settled < |c.blocks| - 1
    requires tx.sender == g.account ==> (tx in c.ours || tx in c.foreign) && tx.nonce == Head(c).nonce
    requires r.block == |c.blocks| - 1
    requires d == EnvApply(g, c, Mine(tx, r.success, r.firstIndex, r.logs, native))
    ensures NoncesInv(g, d)
  {
    hide Net;
    var top := |c.blocks| - 1;
    assert |d.blocks| == |c.blocks| && forall b :: 0 <= b < top ==> d.blocks[b] == c.blocks[b];
    forall t | OwnMined(g, d, t)
      ensures t.nonce in d.spender && d.spender[t.nonce] == t && SpentFrom(d, t.nonce, d.receipts[t].block)
    {
      if t == tx {
        assert forall b :: 0 <= b < top ==> c.blocks[b].nonce <= c.blocks[top].nonce;
      } else {
        assert OwnMined(g, c, t);
        assert t.nonce < c.blocks[top].nonce;
      }
    }
    forall n | n in d.spender ensures d.spender[n].nonce == n && OwnMined(g, d, d.spender[n]) {
      if !(tx.sender == g.account && n == tx.nonce) {
        assert OwnMined(g, c, c.spender[n]);
      }
    }
  }

  lemma QuietKeepsNonces(g: Config, c: Chain, d: Chain)
    requires BlocksInv(c) && NoncesInv(g, c)
    requires d.receipts == c.receipts && d.spender == c.spender && c.ours <= d.ours && c.foreign <= d.foreign
    requires forall tx :: tx in d.ours || tx in d.foreign ==> tx.sender == g.account
    requires d.blocks == c.blocks
             || exists time :: time >= Head(c).time && d.blocks == c.blocks + [Head(c).(time := time)]
    requires c.settled <= d.settled < |d.blocks|
    ensures BlocksInv(d) && NoncesInv(g, d) && Later(g, c, d)
  {
    forall t | OwnMined(g, d, t) ensures SpentFrom(d, t.nonce, d.receipts[t].block) {
      assert OwnMined(g, c, t);
      assert t.nonce < c.blocks[|c.blocks| - 1].nonce;
    }
    forall n | n in d.spender ensures OwnMined(g, d, d.spender[n]) {
      assert OwnMined(g, c, c.spender[n]);
    }
  }

  lemma ReorgKeepsNonces(g: Config, c: Chain, keep: nat, d: Chain)
    requires BlocksInv(c) && NoncesInv(g, c) && c.settled <= keep < |c.blocks|
    requires d == EnvApply(g, c, Reorg(keep))
    ensures BlocksInv(d) && NoncesInv(g, d) && Later(g, c, d)
  {
    forall tx | OwnMined(g, d, tx)
      ensures tx.nonce in d.spender && d.spender[tx.nonce] == tx && SpentFrom(d, tx.nonce, d.receipts[tx].block)
    {
      assert OwnMined(g, c, tx);
      assert tx.nonce < c.blocks[keep].nonce;
    }
    forall n | n in d.spender ensures OwnMined(g, d, d.spender[n]) {
      assert OwnMined(g, c, c.spender[n]);
    }
    assert Head(d) == c.blocks[keep] && d.blocks[0] == c.blocks[0] && Head(d).nonce <= Head(c).nonce;
  }

  lemma EnvKeepsInv(g: Config, c: Chain, e: EnvStep)
    requires ChainInv(g, c) && EnvEnabled(g, c, e)
    ensures ChainInv(g, EnvApply(g, c, e)) && Later(g, c, EnvApply(g, c, e))
  {
    if e.Mine? {
      var r := Receipt(|c.blocks| - 1, e.success, e.firstIndex, e.logs);
      MineKeepsBlocks(g, c, e.tx, r, e.native, EnvApply(g, c, e));
      MineKeepsNonces(g, c, e.tx, r, e.native, EnvApply(g, c, e));
    } else if e.Reorg? {
      ReorgKeepsNonces(g, c, e.keep, EnvApply(g, c, e));
    } else {
      QuietKeepsNonces(g, c, EnvApply(g, c, e));
    }
  }

  lemma EnvKeepsNative(g: Config, c: Chain, e: EnvStep)
    requires BlocksInv(c) && NativeInv(c) && EnvEnabled(g, c, e)
    ensures NativeInv(EnvApply(g, c, e))
  {
    hide Honest, Net;
    var d, top := EnvApply(g, c, e), |c.blocks| - 1;
    forall i, j | 0 <= i <= j < |d.blocks|
      ensures d.blocks[i].funded <= d.blocks[j].funded
      ensures d.blocks[i].nonce == d.blocks[j].nonce ==>
                d.blocks[j].native - d.blocks[i].native == d.blocks[j].funded - d.blocks[i].funded
    {
      var a, b := if i <= top then i else top, if j <= top then j else top;
      assert c.blocks[a].funded <= c.blocks[b].funded && c.blocks[a].nonce <= c.blocks[b].nonce;
    }
  }

  /** Sums over the mined transactions do not depend on the rest of the chain. */
  lemma BalanceFrame(g: Config, c: Chain, d: Chain, b: nat, a: nat)
    requires MinedUpTo(d, b) == MinedUpTo(c, a)
    requires forall tx :: tx in c.receipts && c.receipts[tx].block <= a ==>
               tx in d.receipts && d.receipts[tx] == c.receipts[tx]
    ensures Sum(MinedUpTo(d, b), NetOf(g, d)) == Sum(MinedUpTo(c, a), NetOf(g, c))
  {
    SumSame(MinedUpTo(c, a), NetOf(g, c), NetOf(g, d));
  }

  lemma MineAdds(g: Config, c: Chain, tx: Tx, r: Receipt, d: Chain)
    requires tx !in c.receipts && d.receipts == c.receipts[tx := r]
    ensures Sum(MinedUpTo(d, r.block), NetOf(g, d)) == Sum(MinedUpTo(c, r.block), NetOf(g, c)) + Net(g, r.logs)
  {
    var before := MinedUpTo(c, r.block);
    assert MinedUpTo(d, r.block) == before + {tx};
    SumAdd(before, tx, NetOf(g, d));
    SumSame(before, NetOf(g, c), NetOf(g, d));
  }

  lemma MineKeepsBalance(g: Config, c: Chain, opening: int, tx: Tx, r: Receipt, native: nat, d: Chain)
    requires BlocksInv(c) && BalanceInv(g, c, opening) && tx !in c.receipts && r.block == |c.blocks| - 1
    requires d == EnvApply(g, c, Mine(tx, r.success, r.firstIndex, r.logs, native))
    ensures BalanceInv(g, d, opening)
  {
    var top := |c.blocks| - 1;
    forall b | 0 <= b < |d.blocks|
      ensures d.blocks[b].balance == opening + Sum(MinedUpTo(d, b), NetOf(g, d))
    {
      if b == top {
        MineAdds(g, c, tx, r, d);
      } else {
        assert MinedUpTo(d, b) == MinedUpTo(c, b);
        BalanceFrame(g, c, d, b, b);
      }
    }
  }

  lemma EnvKeepsBalance(g: Config, c: Chain, opening: int, e: EnvStep)
    requires ChainInv(g, c) && BalanceInv(g, c, opening) && EnvEnabled(g, c, e)
    ensures BalanceInv(g, EnvApply(g, c, e), opening)
  {
    var d := EnvApply(g, c, e);
    if e.Mine? {
      MineKeepsBalance(g, c, opening, e.tx, Receipt(|c.blocks| - 1, e.success, e.firstIndex, e.logs), e.native, d);
    } else if e.Reorg? {
      ReorgKeepsBalance(g, c, opening, e.keep, d);
    } else {
      QuietKeepsBalance(g, c, opening, d);
    }
  }

  lemma ReorgKeepsBalance(g: Config, c: Chain, opening: int, keep: nat, d: Chain)
    requires BlocksInv(c) && BalanceInv(g, c, opening) && keep < |c.blocks| && d == EnvApply(g, c, Reorg(keep))
    ensures BalanceInv(g, d, opening)
  {
    forall b | 0 <= b < |d.blocks|
      ensures d.blocks[b].balance == opening + Sum(MinedUpTo(d, b), NetOf(g, d))
    {
      assert MinedUpTo(d, b) == MinedUpTo(c, b);
      BalanceFrame(g, c, d, b, b);
    }
  }

  lemma QuietKeepsBalance(g: Config, c: Chain, opening: int, d: Chain)
    requires BlocksInv(c) && BalanceInv(g, c, opening) && d.receipts == c.receipts
    requires d.blocks == c.blocks || exists time :: d.blocks == c.blocks + [Head(c).(time := time)]
    ensures BalanceInv(g, d, opening)
  {
    forall b | 0 <= b < |d.blocks|
      ensures d.blocks[b].balance == opening + Sum(MinedUpTo(d, b), NetOf(g, d))
    {
      var a := if b < |c.blocks| then b else |c.blocks| - 1;
      assert MinedUpTo(d, b) == MinedUpTo(c, a);
      BalanceFrame(g, c, d, b, a);
    }
  }

  /** A broadcast adds a transaction the account may see mined. */
  function Broadcast(c: Chain, tx: Tx): Chain {
    c.(ours := c.ours + {tx})
  }

  lemma BroadcastKeepsInv(g: Config, c: Chain, tx: Tx, opening: int)
    requires ChainInv(g, c) && tx.sender == g.account
    ensures ChainInv(g, Broadcast(c, tx)) && Later(g, c, Broadcast(c, tx))
    ensures BalanceInv(g, c, opening) ==> BalanceInv(g, Broadcast(c, tx), opening)
  {
    var d := Broadcast(c, tx);
    QuietKeepsNonces(g, c, d);
    if BalanceInv(g, c, opening) {
      QuietKeepsBalance(g, c, opening, d);
    }
  }

  /** A nonce spent at a settled head can only have been spent at or below it. */
  lemma SpentIsSettled(g: Config, c: Chain, tx: Tx, block: nat)
    requires ChainInv(g, c) && OwnMined(g, c, tx) && block < |c.blocks|
    ensures tx.nonce < NonceAt(c, block) <==> c.receipts[tx].block <= block
  {
  }
}
