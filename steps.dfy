/** The single-action rules of the handlers (src/handle.rs) as functions from the stored state
    to either the new stored state or an error. The stateful entry points in module Handle and
    the batch folds in module Batches are built from these. */
module Steps {
  import opened Types
  import opened Sums

  /** The global invariant: the balances add up to the total supply. */
  ghost predicate Conserved(s: Store) {
    Sum(s.balances) == s.totalSupply
  }

  // ---------------------------------------------------------------- transfer

  /** perform_transfer: checked debit of `from`, written first; then the credit re-reads the
      balance of `to` from the debited map, so a self-transfer leaves the balance as it was. */
  function PerformTransfer(balances: map<Address, U128>, from: Address, to: Address, amount: U128)
    : (r: Result<map<Address, U128>>)
    ensures (r == Err(InsufficientFunds(BalanceOf(balances, from), amount))) <==> amount > BalanceOf(balances, from)
    ensures (r == Err(BalanceOverflow)) <==>
              amount <= BalanceOf(balances, from) && from != to && BalanceOf(balances, to) + amount > MAX_U128
    ensures r.Err? ==> r.error.InsufficientFunds? || r.error == BalanceOverflow
    ensures r.Ok? && from != to ==>
              BalanceOf(r.value, from) == BalanceOf(balances, from) - amount &&
              BalanceOf(r.value, to) == BalanceOf(balances, to) + amount
    ensures r.Ok? && from == to ==> BalanceOf(r.value, from) == BalanceOf(balances, from)
    ensures r.Ok? ==> forall a :: a != from && a != to ==> BalanceOf(r.value, a) == BalanceOf(balances, a)
  {
    var fromBalance := BalanceOf(balances, from);
    if amount > fromBalance then Err(InsufficientFunds(fromBalance, amount))
    else
      var debited := balances[from := fromBalance - amount];
      var toBalance := BalanceOf(debited, to);
      if toBalance + amount > MAX_U128 then Err(BalanceOverflow)
      else Ok(debited[to := toBalance + amount])
  }

  /** A transfer moves value between accounts and creates none: the sum of balances is kept. */
  lemma PerformTransferConserves(balances: map<Address, U128>, from: Address, to: Address, amount: U128)
    requires PerformTransfer(balances, from, to, amount).Ok?
    ensures Sum(PerformTransfer(balances, from, to, amount).value) == Sum(balances)
  {
    var fromBalance := BalanceOf(balances, from);
    var debited := balances[from := fromBalance - amount];
    SumUpdate(balances, from, fromBalance - amount);
    SumUpdate(debited, to, BalanceOf(debited, to) + amount);
  }

  /** While the balances add up to at most the u128 maximum (as they do when they add up to the
      total supply), a transfer the sender can cover never fails with the credit overflow. */
  lemma PerformTransferSucceedsWithinSupply(balances: map<Address, U128>, from: Address, to: Address, amount: U128)
    requires Sum(balances) <= MAX_U128
    requires amount <= BalanceOf(balances, from)
    ensures PerformTransfer(balances, from, to, amount).Ok?
  {
    if from != to {
      TwoBalancesAtMostSum(balances, from, to);
    }
  }

  /** The boundary: sending the whole balance succeeds and empties the sender; one more fails
      with InsufficientFunds. */
  lemma TransferWholeBalance(balances: map<Address, U128>, from: Address, to: Address)
    requires Sum(balances) <= MAX_U128
    requires from != to
    ensures PerformTransfer(balances, from, to, BalanceOf(balances, from)).Ok?
    ensures BalanceOf(PerformTransfer(balances, from, to, BalanceOf(balances, from)).value, from) == 0
    ensures BalanceOf(balances, from) < MAX_U128 ==>
              PerformTransfer(balances, from, to, BalanceOf(balances, from) + 1)
                == Err(InsufficientFunds(BalanceOf(balances, from), BalanceOf(balances, from) + 1))
  {
    PerformTransferSucceedsWithinSupply(balances, from, to, BalanceOf(balances, from));
  }

  // ---------------------------------------------------------------- allowances

  /** use_allowance: an expired record is spent as if it held 0 and nothing is written; a live
      record must cover the amount, and then only its amount drops, by exactly `amount`. */
  function UseAllowance(allowances: map<(Address, Address), Allowance>, owner: Address, spender: Address,
                        amount: U128, expiredAt: ExpiryCheck, block: Block)
    : (r: Result<map<(Address, Address), Allowance>>)
    ensures expiredAt(AllowanceOf(allowances, owner, spender), block) ==> r == Err(InsufficientAllowance(0, amount))
    ensures !expiredAt(AllowanceOf(allowances, owner, spender), block) && amount > AllowanceOf(allowances, owner, spender).amount ==>
              r == Err(InsufficientAllowance(AllowanceOf(allowances, owner, spender).amount, amount))
    ensures r.Ok? <==> !expiredAt(AllowanceOf(allowances, owner, spender), block) && amount <= AllowanceOf(allowances, owner, spender).amount
    ensures r.Ok? ==>
              AllowanceOf(r.value, owner, spender).amount == AllowanceOf(allowances, owner, spender).amount - amount &&
              AllowanceOf(r.value, owner, spender).expiration == AllowanceOf(allowances, owner, spender).expiration
    ensures r.Ok? ==> forall o, sp :: (o, sp) != (owner, spender) ==> AllowanceOf(r.value, o, sp) == AllowanceOf(allowances, o, sp)
  {
    var allowance := AllowanceOf(allowances, owner, spender);
    if expiredAt(allowance, block) then Err(InsufficientAllowance(0, amount))
    else if amount > allowance.amount then Err(InsufficientAllowance(allowance.amount, amount))
    else Ok(allowances[(owner, spender) := allowance.(amount := allowance.amount - amount)])
  }

  function SaturatingAdd(x: U128, y: U128): U128 {
    if x + y > MAX_U128 then MAX_U128 else x + y
  }

  function SaturatingSub(x: U128, y: U128): U128 {
    if y > x then 0 else x - y
  }

  /** The record written by try_increase_allowance, given whether the stored one is expired. */
  function IncreasedAllowance(stored: Allowance, expired: bool, delta: U128, expiration: Option<U64>): (r: Allowance)
    ensures expired ==> r.amount == delta
    ensures !expired && stored.amount + delta <= MAX_U128 ==> r.amount == stored.amount + delta
    ensures !expired && stored.amount + delta > MAX_U128 ==> r.amount == MAX_U128
    ensures expiration.Some? ==> r.expiration == expiration
    ensures expiration.None? ==> r.expiration == if expired then None else stored.expiration
  {
    var reset := if expired then Allowance(delta, None) else stored.(amount := SaturatingAdd(stored.amount, delta));
    if expiration.Some? then reset.(expiration := expiration) else reset
  }

  /** The record written by try_decrease_allowance, given whether the stored one is expired. */
  function DecreasedAllowance(stored: Allowance, expired: bool, delta: U128, expiration: Option<U64>): (r: Allowance)
    ensures expired ==> r.amount == 0
    ensures !expired && delta <= stored.amount ==> r.amount == stored.amount - delta
    ensures !expired && delta > stored.amount ==> r.amount == 0
    ensures expiration.Some? ==> r.expiration == expiration
    ensures expiration.None? ==> r.expiration == if expired then None else stored.expiration
  {
    var reset := if expired then Allowance(0, None) else stored.(amount := SaturatingSub(stored.amount, delta));
    if expiration.Some? then reset.(expiration := expiration) else reset
  }

  /** Increasing a live allowance and then decreasing it by the same amount, without a new
      expiration, gives back the original record when the increase did not saturate. */
  lemma IncreaseThenDecreaseRestores(stored: Allowance, delta: U128)
    requires stored.amount + delta <= MAX_U128
    ensures DecreasedAllowance(IncreasedAllowance(stored, false, delta, None), false, delta, None) == stored
  {
  }

  // ---------------------------------------------------------------- transfer handlers

  /** try_transfer_impl: the balances change as perform_transfer says and one transfer record,
      with the sender as both owner and sender, is appended; supply and allowances are untouched. */
  function TransferImpl(s: Store, sender: Address, recipient: Address, amount: U128, memo: Option<string>,
                        block: Block, symbol: string): (r: Result<Store>)
    ensures r.Err? <==> PerformTransfer(s.balances, sender, recipient, amount).Err?
    ensures r.Err? ==> r.error == PerformTransfer(s.balances, sender, recipient, amount).error
    ensures r.Ok? ==>
              r.value.balances == PerformTransfer(s.balances, sender, recipient, amount).value &&
              r.value.totalSupply == s.totalSupply && r.value.allowances == s.allowances &&
              r.value.history == s.history + [TransferTx(sender, sender, recipient, amount, symbol, memo, block)]
  {
    match PerformTransfer(s.balances, sender, recipient, amount)
    case Err(e) => Err(e)
    case Ok(balances) =>
      Ok(s.(balances := balances, history := s.history + [TransferTx(sender, sender, recipient, amount, symbol, memo, block)]))
  }

  /** try_transfer_from_impl: the allowance is consumed before any balance is read, so an
      allowance failure is reported whatever the balances are. */
  function TransferFromImpl(s: Store, expiredAt: ExpiryCheck, block: Block, spender: Address, owner: Address,
                            recipient: Address, amount: U128, memo: Option<string>, symbol: string): (r: Result<Store>)
    ensures UseAllowance(s.allowances, owner, spender, amount, expiredAt, block).Err? ==>
              r == Err(UseAllowance(s.allowances, owner, spender, amount, expiredAt, block).error)
    ensures UseAllowance(s.allowances, owner, spender, amount, expiredAt, block).Ok? ==>
              (r.Ok? <==> PerformTransfer(s.balances, owner, recipient, amount).Ok?)
    ensures UseAllowance(s.allowances, owner, spender, amount, expiredAt, block).Ok? &&
            PerformTransfer(s.balances, owner, recipient, amount).Err? ==>
              r == Err(PerformTransfer(s.balances, owner, recipient, amount).error)
    ensures r.Ok? ==>
              r.value.allowances == UseAllowance(s.allowances, owner, spender, amount, expiredAt, block).value &&
              r.value.balances == PerformTransfer(s.balances, owner, recipient, amount).value &&
              r.value.totalSupply == s.totalSupply &&
              r.value.history == s.history + [TransferTx(owner, spender, recipient, amount, symbol, memo, block)]
  {
    match UseAllowance(s.allowances, owner, spender, amount, expiredAt, block)
    case Err(e) => Err(e)
    case Ok(allowances) =>
      match PerformTransfer(s.balances, owner, recipient, amount)
      case Err(e) => Err(e)
      case Ok(balances) =>
        Ok(Store(balances, s.totalSupply, allowances,
                 s.history + [TransferTx(owner, spender, recipient, amount, symbol, memo, block)]))
  }

  /** Both transfer handlers keep the sum of balances and the total supply, hence the invariant. */
  lemma TransferImplConserves(s: Store, sender: Address, recipient: Address, amount: U128, memo: Option<string>,
                              block: Block, symbol: string)
    requires TransferImpl(s, sender, recipient, amount, memo, block, symbol).Ok?
    ensures Sum(TransferImpl(s, sender, recipient, amount, memo, block, symbol).value.balances) == Sum(s.balances)
    ensures TransferImpl(s, sender, recipient, amount, memo, block, symbol).value.totalSupply == s.totalSupply
  {
    PerformTransferConserves(s.balances, sender, recipient, amount);
  }

  lemma TransferFromImplConserves(s: Store, expiredAt: ExpiryCheck, block: Block, spender: Address, owner: Address,
                                  recipient: Address, amount: U128, memo: Option<string>, symbol: string)
    requires TransferFromImpl(s, expiredAt, block, spender, owner, recipient, amount, memo, symbol).Ok?
    ensures Sum(TransferFromImpl(s, expiredAt, block, spender, owner, recipient, amount, memo, symbol).value.balances)
              == Sum(s.balances)
    ensures TransferFromImpl(s, expiredAt, block, spender, owner, recipient, amount, memo, symbol).value.totalSupply
              == s.totalSupply
  {
    PerformTransferConserves(s.balances, owner, recipient, amount);
  }

  /** try_add_receiver_api_callback: an explicit code hash always yields one notification; without
      one, a registered hash yields one; with neither, none, and the send still succeeds. */
  function ReceiverCallback(registered: map<Address, string>, recipient: Address, codeHash: Option<string>,
                            msg: Option<seq<bv8>>, sender: Address, from: Address, amount: U128,
                            memo: Option<string>): (r: seq<CosmosMsg>)
    ensures |r| <= 1
    ensures |r| == 1 <==> codeHash.Some? || recipient in registered
    ensures |r| == 1 ==>
              r[0].ReceiveCallback? &&
              r[0].codeHash == (if codeHash.Some? then codeHash.value else registered[recipient]) &&
              r[0].contract == recipient && r[0].sender == sender && r[0].from == from &&
              r[0].amount == amount && r[0].memo == memo && r[0].msg == msg
  {
    if codeHash.Some? then [ReceiveCallback(codeHash.value, recipient, sender, from, amount, memo, msg)]
    else if recipient in registered then [ReceiveCallback(registered[recipient], recipient, sender, from, amount, memo, msg)]
    else []
  }

  // ---------------------------------------------------------------- mint and burn

  /** try_mint_impl: credits the recipient with a checked add and records the mint; the caller
      has already raised the total supply. */
  function MintImpl(s: Store, minter: Address, recipient: Address, amount: U128, memo: Option<string>,
                    block: Block, denom: string): (r: Result<Store>)
    ensures r.Err? <==> BalanceOf(s.balances, recipient) + amount > MAX_U128
    ensures r.Err? ==> r.error == BalanceOverflow
    ensures r.Ok? ==>
              BalanceOf(r.value.balances, recipient) == BalanceOf(s.balances, recipient) + amount &&
              (forall a :: a != recipient ==> BalanceOf(r.value.balances, a) == BalanceOf(s.balances, a)) &&
              r.value.totalSupply == s.totalSupply && r.value.allowances == s.allowances &&
              r.value.history == s.history + [MintTx(minter, recipient, amount, denom, memo, block)]
  {
    var balance := BalanceOf(s.balances, recipient);
    if balance + amount > MAX_U128 then Err(BalanceOverflow)
    else Ok(s.(balances := s.balances[recipient := balance + amount],
               history := s.history + [MintTx(minter, recipient, amount, denom, memo, block)]))
  }

  /** A mint credit adds exactly its amount to the sum of balances. */
  lemma MintImplAddsToSum(s: Store, minter: Address, recipient: Address, amount: U128, memo: Option<string>,
                          block: Block, denom: string)
    requires MintImpl(s, minter, recipient, amount, memo, block, denom).Ok?
    ensures Sum(MintImpl(s, minter, recipient, amount, memo, block, denom).value.balances) == Sum(s.balances) + amount
  {
    SumUpdate(s.balances, recipient, BalanceOf(s.balances, recipient) + amount);
  }

  /** The credit overflow of try_mint_impl cannot happen once the supply check has passed:
      a balance never exceeds the sum of balances. */
  lemma MintImplSucceedsWithinSupply(s: Store, minter: Address, recipient: Address, amount: U128,
                                     memo: Option<string>, block: Block, denom: string)
    requires Sum(s.balances) + amount <= MAX_U128
    ensures MintImpl(s, minter, recipient, amount, memo, block, denom).Ok?
  {
    BalanceAtMostSum(s.balances, recipient);
  }

  /** The balance-overflow guards of deposit and mint cannot fire once the supply check has
      passed: under the invariant, any credit the supply can absorb fits every balance. */
  lemma CreditFitsUnderSupply(s: Store, account: Address, amount: U128)
    requires Conserved(s)
    requires s.totalSupply + amount <= MAX_U128
    ensures BalanceOf(s.balances, account) + amount <= MAX_U128
  {
    BalanceAtMostSum(s.balances, account);
  }

  /** The supply guards of redeem and burn cannot fire once the balance check has passed:
      under the invariant, a debit the account covers is covered by the supply. */
  lemma CoveredDebitWithinSupply(s: Store, account: Address, amount: U128)
    requires Conserved(s)
    requires amount <= BalanceOf(s.balances, account)
    ensures amount <= s.totalSupply
  {
    BalanceAtMostSum(s.balances, account);
  }

  /** try_burn_from after its feature check: consume the allowance, then a checked debit of the
      owner, then a checked decrease of the total supply, then the burn record. */
  function BurnFrom(s: Store, expiredAt: ExpiryCheck, block: Block, spender: Address, owner: Address,
                    amount: U128, memo: Option<string>, symbol: string): (r: Result<Store>)
    ensures UseAllowance(s.allowances, owner, spender, amount, expiredAt, block).Err? ==>
              r == Err(UseAllowance(s.allowances, owner, spender, amount, expiredAt, block).error)
    ensures UseAllowance(s.allowances, owner, spender, amount, expiredAt, block).Ok? ==>
              (amount > BalanceOf(s.balances, owner) ==> r == Err(InsufficientFundsToBurn(BalanceOf(s.balances, owner), amount))) &&
              (amount <= BalanceOf(s.balances, owner) && amount > s.totalSupply ==> r == Err(InsufficientSupply)) &&
              (r.Ok? <==> amount <= BalanceOf(s.balances, owner) && amount <= s.totalSupply)
    ensures r.Ok? ==>
              BalanceOf(r.value.balances, owner) == BalanceOf(s.balances, owner) - amount &&
              (forall a :: a != owner ==> BalanceOf(r.value.balances, a) == BalanceOf(s.balances, a)) &&
              r.value.totalSupply == s.totalSupply - amount &&
              r.value.allowances == UseAllowance(s.allowances, owner, spender, amount, expiredAt, block).value &&
              r.value.history == s.history + [BurnTx(owner, spender, amount, symbol, memo, block)]
  {
    match UseAllowance(s.allowances, owner, spender, amount, expiredAt, block)
    case Err(e) => Err(e)
    case Ok(allowances) =>
      var balance := BalanceOf(s.balances, owner);
      if amount > balance then Err(InsufficientFundsToBurn(balance, amount))
      else if amount > s.totalSupply then Err(InsufficientSupply)
      else Ok(Store(s.balances[owner := balance - amount], s.totalSupply - amount, allowances,
                    s.history + [BurnTx(owner, spender, amount, symbol, memo, block)]))
  }

  /** A burn lowers the sum of balances and the supply by the same amount, so it keeps the
      invariant; and under the invariant its supply check never fails. */
  lemma BurnFromConserves(s: Store, expiredAt: ExpiryCheck, block: Block, spender: Address, owner: Address,
                          amount: U128, memo: Option<string>, symbol: string)
    requires Conserved(s)
    ensures BurnFrom(s, expiredAt, block, spender, owner, amount, memo, symbol) != Err(InsufficientSupply)
    ensures BurnFrom(s, expiredAt, block, spender, owner, amount, memo, symbol).Ok? ==>
              Conserved(BurnFrom(s, expiredAt, block, spender, owner, amount, memo, symbol).value)
  {
    var balance := BalanceOf(s.balances, owner);
    BalanceAtMostSum(s.balances, owner);
    if amount <= balance {
      SumUpdate(s.balances, owner, balance - amount);
    }
  }
}
