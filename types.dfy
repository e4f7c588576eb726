/** Values shared by the ledger model: fixed-width integers, addresses, allowance records,
    transaction records, outbound messages and the error kinds of the handlers. */
module Types {

  /** Addresses are taken as already canonical. */
  type Address = string

  const MAX_U128: nat := 0xffff_ffff_ffff_ffff_ffff_ffff_ffff_ffff
  const MAX_U64: nat := 0xffff_ffff_ffff_ffff
  const MAX_U32: nat := 0xffff_ffff
  const MAX_U8: nat := 0xff

  type U128 = x: nat | x <= MAX_U128
  type U64 = x: nat | x <= MAX_U64
  type U32 = x: nat | x <= MAX_U32
  type U8 = x: nat | x <= MAX_U8

  /** The one reserve denomination accepted by deposit and paid out by redeem. */
  const RESERVE_DENOM: string := "ughm"

  datatype Option<T> = None | Some(value: T)

  /** Every handler either yields a value (usually a new store) or fails with one error kind;
      a failure leaves nothing behind, as the host discards the writes of a failed call. */
  datatype Result<T> = Ok(value: T) | Err(error: Error)

  datatype Feature = DepositFeature | RedeemFeature | MintFeature | BurnFeature

  /** One constructor per failure of the handlers; the text of each message is not modelled. */
  datatype Error =
    | UnsupportedToken                                   // a sent coin is not the reserve denomination
    | NoFundsSent                                        // nothing to deposit
    | FeatureDisabled(feature: Feature)
    | NotAMinter
    | SupplyOverflow                                     // total supply would pass the u128 maximum
    | BalanceOverflow                                    // an account balance would pass the u128 maximum
    | InsufficientFunds(balance: U128, required: U128)   // a transfer debit
    | InsufficientFundsToRedeem(balance: U128, required: U128)
    | InsufficientFundsToBurn(balance: U128, required: U128)
    | InsufficientSupply                                 // redeem or burn more than the total supply
    | ReserveInsufficient                                // the contract holds too little of the reserve
    | InsufficientAllowance(allowance: U128, required: U128)

  datatype Coin = Coin(denom: string, amount: U128)

  datatype Block = Block(height: U64, time: U64)

  /** The parts of the call environment the handlers read. */
  datatype Env = Env(sender: Address, sentFunds: seq<Coin>, block: Block, contract: Address)

  /** A delegated-spend record; a missing record reads as amount 0 with no expiration. */
  datatype Allowance = Allowance(amount: U128, expiration: Option<U64>)

  /** Whether an allowance is expired at a block; its definition is not part of this model,
      so every member that needs it takes it as a parameter. */
  type ExpiryCheck = (Allowance, Block) -> bool

  datatype Constants = Constants(
    name: string,
    symbol: string,
    decimals: U8,
    depositEnabled: bool,
    redeemEnabled: bool,
    mintEnabled: bool,
    burnEnabled: bool,
    totalSupplyIsPublic: bool)

  /** One entry of the append-only transaction history. */
  datatype Tx =
    | TransferTx(from: Address, sender: Address, receiver: Address, amount: U128, denom: string, memo: Option<string>, block: Block)
    | MintTx(minter: Address, recipient: Address, amount: U128, denom: string, memo: Option<string>, block: Block)
    | BurnTx(owner: Address, burner: Address, amount: U128, denom: string, memo: Option<string>, block: Block)
    | DepositTx(owner: Address, amount: U128, denom: string, block: Block)
    | RedeemTx(owner: Address, amount: U128, denom: string, block: Block)

  /** Outbound messages: the receiver notification of a send, and the reserve payout of a redeem. */
  datatype CosmosMsg =
    | ReceiveCallback(codeHash: string, contract: Address, sender: Address, from: Address,
                      amount: U128, memo: Option<string>, msg: Option<seq<bv8>>)
    | BankSend(fromAddress: Address, toAddress: Address, coins: seq<Coin>)

  /** The stored state the money-moving handlers rewrite. */
  datatype Store = Store(
    balances: map<Address, U128>,
    totalSupply: U128,
    allowances: map<(Address, Address), Allowance>,
    history: seq<Tx>)

  // Batch actions, one per element of a batch message.
  datatype TransferAction = TransferAction(recipient: Address, amount: U128, memo: Option<string>)
  datatype SendAction = SendAction(recipient: Address, codeHash: Option<string>, amount: U128,
                                   memo: Option<string>, msg: Option<seq<bv8>>)
  datatype TransferFromAction = TransferFromAction(owner: Address, recipient: Address, amount: U128, memo: Option<string>)
  datatype SendFromAction = SendFromAction(owner: Address, recipient: Address, codeHash: Option<string>,
                                           amount: U128, memo: Option<string>, msg: Option<seq<bv8>>)
  datatype MintAction = MintAction(recipient: Address, amount: U128, memo: Option<string>)
  datatype BurnFromAction = BurnFromAction(owner: Address, amount: U128, memo: Option<string>)

  /** The stored balance of an account; an account never credited holds 0. */
  function BalanceOf(balances: map<Address, U128>, account: Address): U128 {
    if account in balances then balances[account] else 0
  }

  /** The stored allowance of (owner, spender); a missing record is amount 0, no expiration. */
  function AllowanceOf(allowances: map<(Address, Address), Allowance>, owner: Address, spender: Address): Allowance {
    if (owner, spender) in allowances then allowances[(owner, spender)] else Allowance(0, None)
  }
}
