/** A venue a refill can be run against (contracts/src/MockRouter.sol): a fixed
    price, a batch of permit, swap and unwrap, and the EVM's rule that a
    transaction which reverts leaves nothing behind. */
module Router {
  import opened Types
  import opened Chain
  import Gas

  const UNIT: nat := 1_000_000_000_000_000_000

  /** keccak256("Approval(address,address,uint256)"). */
  const TOPIC_APPROVAL: nat := 0x8c5be1e5ebec7d5b_d14f71427d1e84f3_dd0314c0f7b2291e_5b200ac8c7c3b925

  datatype Pool = Pool(tokenIn: Address, tokenOut: Address, fee: nat)

  /** The router's storage, beside the token's ledger (balances, and allowances to
      the router), the native ledger and the events emitted so far. */
  datatype Venue = Venue(
    price: nat,
    owed: map<Address, nat>,
    balance: map<Address, nat>,
    allowance: map<Address, nat>,
    native: map<Address, nat>,
    logs: seq<Log>)

  function At(m: map<Address, nat>, a: Address): nat {
    if a in m then m[a] else 0
  }

  /** Checked uint256 arithmetic, left to right: the unit is added before one is
      taken away. */
  function QuoteAt(price: nat, amountOut: nat): Option<nat> {
    if amountOut * price + UNIT >= UINT256_LIMIT then None else Some(Gas.CeilDiv(amountOut * price, UNIT))
  }

  datatype Call =
    | SelfPermit(value: nat, permitDeadline: nat, signed: bool)
    | ExactOutputSingle(pool: Pool, payee: Address, deadline: nat, amountOut: nat, amountInMaximum: nat)
    | UnwrapWETH9(amountMinimum: nat, recipient: Address)

  function TransferEvent(token: Address, from: Address, to: Address, amount: nat): Log {
    Log(token, [TOPIC_TRANSFER, from, to], Bytes(amount, 32), false)
  }

  function ApprovalEvent(token: Address, owner: Address, spender: Address, value: nat): Log {
    Log(token, [TOPIC_APPROVAL, owner, spender], Bytes(value, 32), false)
  }

  /** What a successful transferFrom by the router does. */
  function Pull(self: Address, token: Address, v: Venue, from: Address, amount: nat): Venue
    requires amount <= At(v.allowance, from) && amount <= At(v.balance, from)
  {
    var taken := v.balance[from := At(v.balance, from) - amount];
    v.(allowance := v.allowance[from := At(v.allowance, from) - amount],
       balance := taken[self := At(taken, self) + amount],
       logs := v.logs + [TransferEvent(token, from, self, amount)])
  }

  function Deliver(self: Address, v: Venue, to: Address, amount: nat): Venue
    requires amount <= At(v.native, self)
  {
    var taken := v.native[self := At(v.native, self) - amount];
    v.(native := taken[to := At(taken, to) + amount])
  }

  /** One call of a batch, and what it returns; None if it reverts. */
  function Do(self: Address, pool: Pool, v: Venue, sender: Address, now: nat, c: Call): Option<(Venue, Option<nat>)> {
    match c
    case SelfPermit(value, deadline, signed) =>
      if !signed || now > deadline then None else
        Some((v.(allowance := v.allowance[sender := value],
                 logs := v.logs + [ApprovalEvent(pool.tokenIn, sender, self, value)]), None))
    case ExactOutputSingle(asked, payee, deadline, amountOut, maximum) =>
      var price := QuoteAt(v.price, amountOut);
      if now > deadline || asked != pool || payee != self || price.None? || price.value > maximum
         || price.value > At(v.allowance, sender) || price.value > At(v.balance, sender)
         || At(v.owed, sender) + amountOut >= UINT256_LIMIT
      then None else
        var paid := Pull(self, pool.tokenIn, v, sender, price.value);
        Some((paid.(owed := v.owed[sender := At(v.owed, sender) + amountOut]), Some(price.value)))
    case UnwrapWETH9(minimum, recipient) =>
      var amount := At(v.owed, sender);
      if amount < minimum || amount > At(v.native, self) then None else
        Some((Deliver(self, v.(owed := v.owed[sender := 0]), recipient, amount), None))
  }

  /** A batch so far: the venue and what each call returned, unless one reverted. */
  type Progress = Option<(Venue, seq<Option<nat>>)>

  function Then(self: Address, pool: Pool, sofar: Progress, sender: Address, now: nat, c: Call): Progress {
    if sofar.None? then None else
      var step := Do(self, pool, sofar.value.0, sender, now, c);
      if step.None? then None else Some((step.value.0, sofar.value.1 + [step.value.1]))
  }

  function DoAll(self: Address, pool: Pool, v: Venue, sender: Address, now: nat, batch: seq<Call>): Progress {
    if batch == [] then Some((v, [])) else
      Then(self, pool, DoAll(self, pool, v, sender, now, batch[..|batch| - 1]), sender, now, batch[|batch| - 1])
  }

  /** Once a call of the batch reverts, the batch reverts. */
  lemma {:induction false} RevertStays(self: Address, pool: Pool, v: Venue, sender: Address, now: nat,
      batch: seq<Call>, n: nat)
    requires n <= |batch| && DoAll(self, pool, v, sender, now, batch[..n]).None?
    ensures DoAll(self, pool, v, sender, now, batch).None?
    decreases |batch|
  {
    if n < |batch| {
      assert batch[..|batch| - 1][..n] == batch[..n];
      RevertStays(self, pool, v, sender, now, batch[..|batch| - 1], n);
    } else {
      assert batch[..n] == batch;
    }
  }

  class MockRouter {
    const self: Address
    const pool: Pool
    var price: nat
    var owed: map<Address, nat>
    var balance: map<Address, nat>
    var allowance: map<Address, nat>
    var native: map<Address, nat>
    var logs: seq<Log>

    constructor (self: Address, pool: Pool, price: nat, balance: map<Address, nat>, native: map<Address, nat>)
      ensures this.self == self && this.pool == pool && View() == Venue(price, map[], balance, map[], native, [])
    {
      this.self, this.pool, this.price := self, pool, price;
      this.balance, this.native := balance, native;
      owed, allowance, logs := map[], map[], [];
    }

    function View(): Venue
      reads this
    {
      Venue(price, owed, balance, allowance, native, logs)
    }

    method SetPrice(newPrice: nat)
      modifies this`price
      ensures View() == old(View()).(price := newPrice)
    {
      price := newPrice;
    }

    /** The least input whose value covers the output, unless the product overflows. */
    method Quote(amountOut: nat) returns (r: Option<nat>)
      ensures r == QuoteAt(price, amountOut)
      ensures r.None? <==> amountOut * price + UNIT >= UINT256_LIMIT
      ensures r.Some? ==> r.value < UINT256_LIMIT && forall x: int :: x >= r.value <==> UNIT * x >= amountOut * price
    {
      if amountOut * price + UNIT >= UINT256_LIMIT { return None; }
      r := Some((amountOut * price + UNIT - 1) / UNIT);
      forall x: int ensures x >= r.value <==> UNIT * x >= amountOut * price {
        Gas.CeilDivIsLeast(amountOut * price, UNIT, x);
      }
    }

    method Permit(sender: Address, now: nat, value: nat, deadline: nat, signed: bool) returns (ok: bool)
      modifies this`allowance, this`logs
      ensures ok <==> signed && now <= deadline
      ensures ok ==>
                Do(self, pool, old(View()), sender, now, SelfPermit(value, deadline, signed)) == Some((View(), None))
    {
      if !signed || now > deadline { return false; }
      allowance := allowance[sender := value];
      logs := logs + [ApprovalEvent(pool.tokenIn, sender, self, value)];
      return true;
    }

    method TransferFrom(from: Address, amount: nat) returns (ok: bool)
      modifies this`allowance, this`balance, this`logs
      ensures ok <==> amount <= At(old(allowance), from) && amount <= At(old(balance), from)
      ensures ok ==> View() == Pull(self, pool.tokenIn, old(View()), from, amount)
    {
      hide TransferEvent;
      if amount > At(allowance, from) || amount > At(balance, from) { return false; }
      allowance := allowance[from := At(allowance, from) - amount];
      balance := balance[from := At(balance, from) - amount];
      balance := balance[self := At(balance, self) + amount];
      logs := logs + [TransferEvent(pool.tokenIn, from, self, amount)];
      return true;
    }

    method Swap(sender: Address, now: nat, asked: Pool, payee: Address, deadline: nat, amountOut: nat, maximum: nat)
      returns (r: Option<nat>)
      modifies this`allowance, this`balance, this`logs, this`owed
      ensures var out := Do(self, pool, old(View()), sender, now,
          ExactOutputSingle(asked, payee, deadline, amountOut, maximum));
              r.Some? == out.Some? && (r.Some? ==> out == Some((View(), r)))
    {
      if now > deadline { return None; }
      if asked != pool { return None; }
      if payee != self { return None; }
      var amountIn := Quote(amountOut);
      if amountIn.None? || amountIn.value > maximum { return None; }
      var pulled := TransferFrom(sender, amountIn.value);
      if !pulled { return None; }
      if At(owed, sender) + amountOut >= UINT256_LIMIT { return None; }
      owed := owed[sender := At(owed, sender) + amountOut];
      return amountIn;
    }

    method Unwrap(sender: Address, minimum: nat, recipient: Address) returns (ok: bool)
      modifies this`owed, this`native
      ensures ok <==> minimum <= At(old(owed), sender) <= At(old(native), self)
      ensures ok ==> forall now ::
                Do(self, pool, old(View()), sender, now, UnwrapWETH9(minimum, recipient)) == Some((View(), None))
    {
      var amount := At(owed, sender);
      if amount < minimum { return false; }
      owed := owed[sender := 0];
      if amount > At(native, self) { return false; }
      native := native[self := At(native, self) - amount];
      native := native[recipient := At(native, recipient) + amount];
      return true;
    }

    method Dispatch(sender: Address, now: nat, c: Call) returns (ok: bool, result: Option<nat>)
      modifies this
      ensures price == old(price)
      ensures var out := Do(self, pool, old(View()), sender, now, c);
              ok == out.Some? && (ok ==> out == Some((View(), result)))
    {
      result := None;
      match c {
        case SelfPermit(value, deadline, signed) => ok := Permit(sender, now, value, deadline, signed);
        case ExactOutputSingle(asked, payee, deadline, amountOut, maximum) =>
          result := Swap(sender, now, asked, payee, deadline, amountOut, maximum);
          ok := result.Some?;
        case UnwrapWETH9(minimum, recipient) => ok := Unwrap(sender, minimum, recipient);
      }
    }

    /** Runs the batch in order, the caller staying the payer throughout; None at the
        first call that reverts. */
    method Multicall(sender: Address, now: nat, batch: seq<Call>) returns (r: Option<array<Option<nat>>>)
      modifies this
      ensures r.Some? ==> fresh(r.value)
      ensures var out := DoAll(self, pool, old(View()), sender, now, batch);
              r.Some? == out.Some? && (r.Some? ==> out == Some((View(), r.value[..])))
    {
      var results := new Option<nat>[|batch|](_ => None);
      var i := 0;
      while i < |batch|
        invariant 0 <= i <= |batch| == results.Length && fresh(results)
        invariant DoAll(self, pool, old(View()), sender, now, batch[..i]) == Some((View(), results[..i]))
      {
        assert batch[..i + 1][..i] == batch[..i];
        ghost var done := results[..i];
        var ok, result := Dispatch(sender, now, batch[i]);
        if !ok {
          RevertStays(self, pool, old(View()), sender, now, batch, i + 1);
          return None;
        }
        results[i] := result;
        i := i + 1;
        assert results[..i] == done + [result];
      }
      assert batch[..i] == batch && results[..i] == results[..];
      return Some(results);
    }

    /** One transaction: all of the batch, or nothing. */
    method Transact(sender: Address, now: nat, batch: seq<Call>) returns (ok: bool)
      modifies this
      ensures var out := DoAll(self, pool, old(View()).(logs := []), sender, now, batch);
              ok == out.Some?
              && View() == if ok then out.value.0 else old(View()).(logs := [])
    {
      logs := [];
      var before := (price, owed, balance, allowance, native);
      var r := Multicall(sender, now, batch);
      if r.Some? { return true; }
      price, owed, balance, allowance, native := before.0, before.1, before.2, before.3, before.4;
      logs := [];
      return false;
    }
  }

  // ----- a refill -----

  /** The calls a refill's calldata encodes (venue.go:221). */
  function RefillBatch(self: Address, pool: Pool, c: Calldata, signed: bool): seq<Call>
    requires c.RefillCall? && 0 <= c.permitValue && 0 <= c.delta && 0 <= c.maxInput
  {
    [SelfPermit(c.permitValue, c.deadline, signed),
     ExactOutputSingle(pool, self, c.deadline, c.delta, c.maxInput),
     UnwrapWETH9(c.delta, c.recipient)]
  }

  predicate WellSigned(c: Calldata) {
    c.RefillCall? && 0 <= c.delta && 0 <= c.maxInput < UINT256_LIMIT && c.permitValue == c.maxInput
  }

  /** What a refill needs of the moment it runs in. */
  predicate Fillable(self: Address, v: Venue, sender: Address, now: nat, c: Calldata, signed: bool)
    requires WellSigned(c)
  {
    var cost := QuoteAt(v.price, c.delta);
    && signed && now <= c.deadline
    && cost.Some? && cost.value <= c.maxInput && cost.value <= At(v.balance, sender)
    && At(v.owed, sender) + c.delta < UINT256_LIMIT && At(v.owed, sender) + c.delta <= At(v.native, self)
  }

  /** A refill delivers exact output or nothing. It runs exactly when it is fillable;
      it then takes the quoted price once, leaves the rest of the permit as allowance,
      and hands over what was bought with anything still owed, owing nothing. */
  lemma RefillExactly(self: Address, pool: Pool, v: Venue, sender: Address, now: nat, c: Calldata, signed: bool)
    requires WellSigned(c) && sender != self && c.recipient == sender && v.logs == []
    ensures var out := DoAll(self, pool, v, sender, now, RefillBatch(self, pool, c, signed));
            && (out.Some? <==> Fillable(self, v, sender, now, c, signed))
            && (out.Some? ==>
                  var u, cost := out.value.0, QuoteAt(v.price, c.delta).value;
                  && out.value.1 == [None, Some(cost), None]
                  && At(u.balance, sender) == At(v.balance, sender) - cost
                  && At(u.balance, self) == At(v.balance, self) + cost
                  && At(u.allowance, sender) == c.maxInput - cost
                  && At(u.owed, sender) == 0
                  && At(u.native, sender) == At(v.native, sender) + At(v.owed, sender) + c.delta
                  && At(u.native, self) == At(v.native, self) - At(v.owed, sender) - c.delta
                  && u.price == v.price
                  && (forall a: Address :: a != sender && a != self ==>
                        At(u.balance, a) == At(v.balance, a) && At(u.native, a) == At(v.native, a)
                        && At(u.owed, a) == At(v.owed, a) && At(u.allowance, a) == At(v.allowance, a))
                  && u.logs == [ApprovalEvent(pool.tokenIn, sender, self, c.maxInput),
                                TransferEvent(pool.tokenIn, sender, self, cost)])
  {
    hide DoAll;
    ThreeCalls(self, pool, v, sender, now, SelfPermit(c.permitValue, c.deadline, signed),
               ExactOutputSingle(pool, self, c.deadline, c.delta, c.maxInput), UnwrapWETH9(c.delta, c.recipient));
  }

  lemma ThreeCalls(self: Address, pool: Pool, v: Venue, sender: Address, now: nat, a: Call, b: Call, c: Call)
    ensures DoAll(self, pool, v, sender, now, [a, b, c])
            == Then(self, pool, Then(self, pool, Then(self, pool, Some((v, [])), sender, now, a), sender, now, b),
                sender, now, c)
  {
    hide Then;
    assert [a, b, c][..2] == [a, b] && [a, b][..1] == [a] && [a][..0] == [];
    assert DoAll(self, pool, v, sender, now, [a]) == Then(self, pool, Some((v, [])), sender, now, a);
  }

  /** Sized from a quote, a refill whose price has since risen by no more than the
      slippage bound never reverts on slippage: it runs exactly when it is signed, in
      time, held, and stocked. */
  lemma QuotedRefillNeverSlips(self: Address, pool: Pool, quotedPrice: nat, bps: nat, v: Venue, sender: Address,
                               now: nat, c: Calldata, signed: bool)
    requires WellSigned(c) && sender != self && c.recipient == sender && v.logs == []
    requires QuoteAt(quotedPrice, c.delta).Some?
    requires c.maxInput == Gas.WithSlippage(QuoteAt(quotedPrice, c.delta).value, bps)
    requires 10_000 * v.price <= quotedPrice * (10_000 + bps) && QuoteAt(v.price, c.delta).Some?
    ensures var cost := QuoteAt(v.price, c.delta).value;
            DoAll(self, pool, v, sender, now, RefillBatch(self, pool, c, signed)).Some?
            <==> signed && now <= c.deadline && cost <= At(v.balance, sender)
                 && At(v.owed, sender) + c.delta < UINT256_LIMIT && At(v.owed, sender) + c.delta <= At(v.native, self)
  {
    RefillExactly(self, pool, v, sender, now, c, signed);
    Gas.SlippageCoversPriceRise(c.delta, UNIT, quotedPrice, v.price, bps);
  }

  /** From the decision to the delivered reserve. When the policy sizes a refill from
      the venue's quote and it runs in time against a venue whose price has risen by
      no more than the slippage bound, it cannot fail; the reserve lands at or above
      the maximum, the pending payment is still held, and it executes next. */
  lemma RefillRestoresReserve(p: GasPolicy, i: Gas.PolicyInput, delta: nat, quotedPrice: nat, quote: int, maxInput: int,
                              self: Address, pool: Pool, v: Venue, sender: Address, now: nat, deadline: nat,
                              cost: int, nextSwapCost: int)
    requires p.Valid() && sender != self && v.logs == []
    requires Gas.Decide(p, i) == Gas.Quote(delta) && QuoteAt(quotedPrice, delta) == Some(quote)
    requires Gas.Decide(p, i.(quote := Some(quote))) == Gas.Buy(delta, maxInput) && maxInput < UINT256_LIMIT
    requires 10_000 * v.price <= quotedPrice * (10_000 + p.slippageBps) && QuoteAt(v.price, delta).Some?
    requires At(v.owed, sender) + delta < UINT256_LIMIT && At(v.owed, sender) + delta <= At(v.native, self)
    requires now <= deadline && 0 <= i.pending && cost <= i.swapCost
    requires At(v.balance, sender) == i.token && At(v.native, sender) == i.gas - cost
    ensures var c := RefillCall(maxInput, delta, maxInput, sender, deadline);
            && WellSigned(c)
            && var out := DoAll(self, pool, v, sender, now, RefillBatch(self, pool, c, true));
            && out.Some?
            && var gas, token := At(out.value.0.native, sender), At(out.value.0.balance, sender);
               gas >= p.max && token >= i.pending
               && Gas.Decide(p, Gas.PolicyInput(gas, token, nextSwapCost, None, i.pending)) == Gas.Execute
  {
    hide DoAll;
    Gas.SlippageIsLeast(quote, p.slippageBps, maxInput);
    Gas.SlippageCoversPriceRise(delta, UNIT, quotedPrice, v.price, p.slippageBps);
    RefillExactly(self, pool, v, sender, now, RefillCall(maxInput, delta, maxInput, sender, deadline), true);
  }

  // ----- the trust base holds of this venue -----

  /** The two events as the rail reads them. */
  lemma EventsRead(token: Address, from: Address, to: Address, amount: nat)
    ensures !IsTransferOf(token, ApprovalEvent(token, from, to, amount))
        && !ApprovalEvent(token, from, to, amount).removed
    ensures var l := TransferEvent(token, from, to, amount);
            IsTransferOf(token, l) && WellFormed(l) && AddressOf(l.topics[1]) == from && AddressOf(l.topics[2]) == to
    ensures amount < UINT256_LIMIT ==> Word(TransferEvent(token, from, to, amount)) == amount
  {
    if amount < UINT256_LIMIT {
      Powers();
      BytesRead(amount, 32);
      assert Bytes(amount, 32)[0..] == Bytes(amount, 32);
    }
  }

  predicate IsTransferOf(token: Address, l: Log) {
    l.address == token && !l.removed && |l.topics| > 0 && l.topics[0] == TOPIC_TRANSFER
  }

  /** A successful refill meets the trust base, takes its price once within the bound,
      and what its events say moved is what the venue's ledger moved. */
  lemma RefillIsHonest(g: Config, self: Address, pool: Pool, v: Venue, tx: Tx, now: nat, signed: bool)
    requires self != g.account && pool.tokenIn == g.token && v.logs == []
    requires WellSigned(tx.data) && tx.sender == g.account && tx.data.recipient == g.account
    requires DoAll(self, pool, v, g.account, now, RefillBatch(self, pool, tx.data, signed)).Some?
    ensures var u := DoAll(self, pool, v, g.account, now, RefillBatch(self, pool, tx.data, signed)).value.0;
            && Honest(g, tx, now, true, u.logs) && BoughtOnce(g, u.logs, tx.data.maxInput)
            && Net(g, u.logs) == At(u.balance, g.account) - At(v.balance, g.account)
  {
    hide DoAll, AddressOf, Word, Bytes, TransferEvent, ApprovalEvent;
    RefillExactly(self, pool, v, g.account, now, tx.data, signed);
    var u := DoAll(self, pool, v, g.account, now, RefillBatch(self, pool, tx.data, signed)).value.0;
    var cost := QuoteAt(v.price, tx.data.delta).value;
    EventsRead(g.token, g.account, self, tx.data.maxInput);
    EventsRead(g.token, g.account, self, cost);
    assert u.logs[..1] == [u.logs[0]] && u.logs[..1][..0] == [];
    assert Net(g, u.logs) == Net(g, u.logs[..1]) + LogNet(g, u.logs[1]) && Net(g, u.logs[..1]) == Net(g, []) + 0;
    assert SentLog(u.logs[1], g.token, g.account);
    assert BoughtOnce(g, u.logs, tx.data.maxInput);
  }

  /** Every event of a batch is the caller's own. */
  ghost predicate OwnEvents(token: Address, self: Address, sender: Address, logs: seq<Log>) {
    forall l :: l in logs ==>
      || (exists value: nat :: l == ApprovalEvent(token, sender, self, value))
      || (exists amount: nat :: l == TransferEvent(token, sender, self, amount))
  }

  lemma {:induction false} BatchEmitsOwnEvents(self: Address, pool: Pool, v: Venue, sender: Address, now: nat,
      batch: seq<Call>)
    requires v.logs == [] && DoAll(self, pool, v, sender, now, batch).Some?
    ensures OwnEvents(pool.tokenIn, self, sender, DoAll(self, pool, v, sender, now, batch).value.0.logs)
    ensures var u := DoAll(self, pool, v, sender, now, batch).value.0;
            forall a: Address :: a != sender && a != self ==> At(u.balance, a) == At(v.balance, a)
    decreases |batch|
  {
    if batch != [] {
      BatchEmitsOwnEvents(self, pool, v, sender, now, batch[..|batch| - 1]);
    }
  }

  /** Nobody else's batch, whatever its calls, spends the account's money or says it
      did. */
  lemma OthersCannotSpend(g: Config, self: Address, pool: Pool, v: Venue, tx: Tx, now: nat, batch: seq<Call>)
    requires self != g.account && tx.sender != g.account && pool.tokenIn == g.token && v.logs == []
    requires DoAll(self, pool, v, tx.sender, now, batch).Some?
    ensures var u := DoAll(self, pool, v, tx.sender, now, batch).value.0;
            Honest(g, tx, now, true, u.logs) && At(u.balance, g.account) == At(v.balance, g.account)
  {
    hide DoAll, AddressOf, Word, Bytes, TransferEvent, ApprovalEvent;
    BatchEmitsOwnEvents(self, pool, v, tx.sender, now, batch);
    forall l | l in DoAll(self, pool, v, tx.sender, now, batch).value.0.logs
      ensures !l.removed && (IsTransfer(g, l) ==> WellFormed(l)) && !SentLog(l, g.token, g.account)
    {
      if value: nat :| l == ApprovalEvent(g.token, tx.sender, self, value) {
        EventsRead(g.token, tx.sender, self, value);
      } else {
        var amount: nat :| l == TransferEvent(g.token, tx.sender, self, amount);
        EventsRead(g.token, tx.sender, self, amount);
      }
    }
  }
}
