/** The rail's vocabulary: identifiers, transactions, durable records,
    configuration and errors (go/rail/types.go). */
module Types {

  datatype Option<+T> = None | Some(value: T)

  const UINT256_LIMIT: int := 0x1_0000000000000000_0000000000000000_0000000000000000_0000000000000000
  const ADDRESS_LIMIT: int := 0x1_00000000_0000000000000000_0000000000000000

  type Address = a: int | 0 <= a < ADDRESS_LIMIT
  const ZERO_ADDRESS: Address := 0

  /** An identifier is a 32-byte string. A refill's is a hash of the account and
      the eight bytes of the nonce it owns; a host's is whatever it chose, and
      nothing stops a host from naming a refill's. */
  datatype ID = Named(name: nat) | Refilled(account: Address, nonceBytes: seq<nat>)

  datatype Kind = Transfer | Withdraw | Refill

  /** Calldata as the structured call it encodes. */
  datatype Calldata =
    | TransferCall(to: Address, amount: int)
    | RefillCall(permitValue: int, delta: int, maxInput: int, recipient: Address, deadline: nat)
    | OtherCall(bytes: seq<int>)

  /** A signed transaction. Signing is deterministic, so the fields determine it. */
  datatype Tx = Tx(chainId: int, sender: Address, nonce: nat, tip: int, feeCap: int,
                   gas: nat, to: Address, data: Calldata)

  /** A hash stands for the transaction it was made from. */
  datatype Hash = ZeroHash | HashOf(tx: Tx)

  datatype Intent = Intent(id: ID, kind: Kind, to: Address, amount: int, delta: int,
                           nonce: nat, calldata: Calldata, fromBlock: nat)
  {
    predicate Valid() {
      && to != ZERO_ADDRESS
      && 0 < amount < UINT256_LIMIT
      && (kind.Refill? ==> 0 < delta)
    }

    /** Equal but for calldata, size and first block. */
    predicate SameTerms(o: Intent) {
      id == o.id && kind == o.kind && to == o.to && nonce == o.nonce && amount == o.amount
    }
  }

  datatype Submission = Submission(txHash: Hash, gas: nat, tip: int, feeCap: int)

  datatype Fact = Fact(txHash: Hash, block: nat, executed: bool)

  /** Where a deposit is found on the chain. */
  datatype LogKey = LogKey(txHash: Hash, index: nat)

  datatype Deposit = Deposit(from: Address, amount: int, block: nat)

  const DEFAULT_PAYMENT_GAS: nat := 200_000
  const DEFAULT_SWAP_GAS: nat := 600_000

  datatype GasPolicy = GasPolicy(min: int, max: int, slippageBps: nat, feeBound: int,
                                 paymentGas: nat, swapGas: nat)
  {
    predicate Valid() {
      0 < min < max && 0 < feeBound <= min && slippageBps <= 10_000
    }

    /** What is configured for the kind, or, for zero, 600,000 for a refill and 200,000
        for a payment or a withdrawal. */
    function GasLimit(kind: Kind): (limit: nat)
      ensures kind.Refill? && swapGas > 0 ==> limit == swapGas
      ensures !kind.Refill? && paymentGas > 0 ==> limit == paymentGas
      ensures kind.Refill? && swapGas == 0 ==> limit == 600_000
      ensures !kind.Refill? && paymentGas == 0 ==> limit == 200_000
    {
      if kind.Refill? then (if swapGas == 0 then DEFAULT_SWAP_GAS else swapGas)
      else if paymentGas == 0 then DEFAULT_PAYMENT_GAS else paymentGas
    }
  }

  /** What never changes about an account: its chain, address and token, and the first
      block observed. */
  datatype Config = Config(chainId: int, account: Address, token: Address, fromBlock: nat)

  /** What may be configured anew at every start: where gas is bought, and when. */
  datatype Settings = Settings(router: Address, policy: GasPolicy)

  /** The address an attempt is sent to: the token, or the venue recorded when the refill
      was, whatever is configured since. */
  function Target(g: Config, i: Intent): Address {
    if i.kind.Refill? then i.to else g.token
  }

  /** The transaction an attempt at an intent signs. */
  function TxFor(g: Config, i: Intent, s: Submission): Tx {
    Tx(g.chainId, g.account, i.nonce, s.tip, s.feeCap, s.gas, Target(g, i), i.calldata)
  }

  datatype Error =
    | Unavailable            // a node or the store could not answer, or the process died here
    | BadInput
    | IntentConflict
    | NoIntent
    | WrongDomain
    | InFlight
    | NeedRefill
    | NoRefillNeeded
    | InsufficientStablecoin
    | InsufficientNative
    | FeesAboveBound
    | SimulationFailed
    | Unreconciled

  datatype Result<+T> = Ok(value: T) | Err(error: Error) {
    predicate IsFailure() { Err? }
    function PropagateFailure<U>(): Result<U>
      requires Err?
    {
      Err(error)
    }
    function Extract(): T
      requires Ok?
    {
      value
    }
  }
}
