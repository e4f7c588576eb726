/** The state-changing handlers of src/handle.rs on the contract's stored state.

    Every handler reads the stored fields, works on local copies (the overlay) in the order the
    source does, and writes the fields back only when the whole call succeeds: the host discards
    the writes of a failed call, so a failure here leaves every field as it was. */
module Handle {
  import opened Types
  import opened Sums
  import opened Steps
  import opened Batches

  /** The accepted amount of a deposit, from the coins sent with it (src/handle.rs:19-29):
      every coin must be of the reserve denomination, and each one overwrites the amount,
      so the last coin counts and the coins are not added up. */
  predicate AllReserve(funds: seq<Coin>) {
    forall i :: 0 <= i < |funds| ==> funds[i].denom == RESERVE_DENOM
  }

  function LastAmount(funds: seq<Coin>): U128 {
    if funds == [] then 0 else funds[|funds| - 1].amount
  }

  method DepositedAmount(funds: seq<Coin>) returns (r: Result<U128>)
    ensures r.Ok? <==> AllReserve(funds)
    ensures r.Err? ==> r.error == UnsupportedToken
    ensures r.Ok? ==> r.value == LastAmount(funds)
  {
    var amount: U128 := 0;
    for i := 0 to |funds|
      invariant forall j :: 0 <= j < i ==> funds[j].denom == RESERVE_DENOM
      invariant amount == LastAmount(funds[..i])
    {
      if funds[i].denom == RESERVE_DENOM {
        amount := funds[i].amount;
      } else {
        return Err(UnsupportedToken);
      }
    }
    assert funds[..|funds|] == funds;
    return Ok(amount);
  }

  class Ledger {
    const constants: Constants
    /** is_expired_at of an allowance record at a block. */
    const isExpiredAt: ExpiryCheck

    var balances: map<Address, U128>
    var totalSupply: U128
    var allowances: map<(Address, Address), Allowance>
    var minters: seq<Address>
    /** Code hashes registered by receiving contracts. */
    var receiverHashes: map<Address, string>
    /** The transaction history, append-only. */
    var history: seq<Tx>

    /** The class invariant: the balances add up to the total supply. */
    ghost predicate Valid()
      reads this
    {
      Conserved(State())
    }

    function State(): Store
      reads this
    {
      Store(balances, totalSupply, allowances, history)
    }

    /** How a handler ends: on failure with the error and every field as it was, on success with
        the new state and the outbound messages. */
    ghost predicate Settles(res: Result<Store>, before: Store, r: Result<seq<CosmosMsg>>, msgs: seq<CosmosMsg>)
      reads this
    {
      && (res.Err? ==> r == Err(res.error) && State() == before)
      && (res.Ok? ==> r == Ok(msgs) && State() == res.value)
    }

    constructor (constants: Constants, minters: seq<Address>, isExpiredAt: ExpiryCheck)
      ensures Valid()
      ensures this.constants == constants && this.minters == minters
      ensures State() == Store(map[], 0, map[], []) && receiverHashes == map[]
    {
      this.constants := constants;
      this.isExpiredAt := isExpiredAt;
      this.minters := minters;
      balances, totalSupply, allowances, history := map[], 0, map[], [];
      receiverHashes := map[];
    }

    method Commit(s: Store)
      modifies this`balances, this`totalSupply, this`allowances, this`history
      ensures State() == s
    {
      balances, totalSupply, allowances, history := s.balances, s.totalSupply, s.allowances, s.history;
    }

    // ---------------------------------------------------------------- deposit and redeem

    /** try_deposit: the errors come in the order unsupported denomination, nothing sent, deposit
        disabled, then the two overflows; on success supply and sender balance both rise by the
        last coin's amount. */
    method TryDeposit(env: Env) returns (r: Result<seq<CosmosMsg>>)
      requires Valid()
      modifies this`balances, this`totalSupply, this`allowances, this`history
      ensures Valid()
      ensures r.Err? ==> State() == old(State())
      ensures !AllReserve(env.sentFunds) ==> r == Err(UnsupportedToken)
      ensures AllReserve(env.sentFunds) && LastAmount(env.sentFunds) == 0 ==> r == Err(NoFundsSent)
      ensures AllReserve(env.sentFunds) && LastAmount(env.sentFunds) > 0 && !constants.depositEnabled ==>
                r == Err(FeatureDisabled(DepositFeature))
      ensures AllReserve(env.sentFunds) && LastAmount(env.sentFunds) > 0 && constants.depositEnabled &&
              old(totalSupply) + LastAmount(env.sentFunds) > MAX_U128 ==>
                r == Err(SupplyOverflow)
      ensures AllReserve(env.sentFunds) && LastAmount(env.sentFunds) > 0 && constants.depositEnabled &&
              old(totalSupply) + LastAmount(env.sentFunds) <= MAX_U128 &&
              old(BalanceOf(balances, env.sender)) + LastAmount(env.sentFunds) > MAX_U128 ==>
                r == Err(BalanceOverflow)
      ensures r.Ok? <==>
                AllReserve(env.sentFunds) && LastAmount(env.sentFunds) > 0 && constants.depositEnabled &&
                old(totalSupply) + LastAmount(env.sentFunds) <= MAX_U128 &&
                old(BalanceOf(balances, env.sender)) + LastAmount(env.sentFunds) <= MAX_U128
      ensures r.Ok? ==>
                r.value == [] &&
                totalSupply == old(totalSupply) + LastAmount(env.sentFunds) &&
                balances == old(balances)[env.sender := old(BalanceOf(balances, env.sender)) + LastAmount(env.sentFunds)] &&
                allowances == old(allowances) &&
                history == old(history) + [DepositTx(env.sender, LastAmount(env.sentFunds), RESERVE_DENOM, env.block)]
    {
      var sent := DepositedAmount(env.sentFunds);
      if sent.Err? {
        return Err(sent.error);
      }
      var amount := sent.value;
      if amount == 0 {
        return Err(NoFundsSent);
      }
      if !constants.depositEnabled {
        return Err(FeatureDisabled(DepositFeature));
      }
      if totalSupply + amount > MAX_U128 {
        return Err(SupplyOverflow);
      }
      var newSupply: U128 := totalSupply + amount;
      var accountBalance := BalanceOf(balances, env.sender);
      if accountBalance + amount > MAX_U128 {
        return Err(BalanceOverflow);
      }
      SumUpdate(balances, env.sender, accountBalance + amount);
      balances, totalSupply := balances[env.sender := accountBalance + amount], newSupply;
      history := history + [DepositTx(env.sender, amount, RESERVE_DENOM, env.block)];
      r := Ok([]);
    }

    /** try_redeem: redeem disabled, then the sender's balance, then the total supply, then the
        contract's reserve (`reserve`, the contract's balance of the reserve denomination) must
        cover the amount; on success balance and supply each fall by the amount and exactly one
        payment of it in the reserve denomination goes to the sender. */
    method TryRedeem(env: Env, amount: U128, reserve: U128) returns (r: Result<seq<CosmosMsg>>)
      requires Valid()
      modifies this`balances, this`totalSupply, this`allowances, this`history
      ensures Valid()
      ensures r.Err? ==> State() == old(State())
      ensures !constants.redeemEnabled ==> r == Err(FeatureDisabled(RedeemFeature))
      ensures constants.redeemEnabled && amount > old(BalanceOf(balances, env.sender)) ==>
                r == Err(InsufficientFundsToRedeem(old(BalanceOf(balances, env.sender)), amount))
      ensures constants.redeemEnabled && amount <= old(BalanceOf(balances, env.sender)) && amount > old(totalSupply) ==>
                r == Err(InsufficientSupply)
      ensures constants.redeemEnabled && amount <= old(BalanceOf(balances, env.sender)) && amount <= old(totalSupply) &&
              amount > reserve ==>
                r == Err(ReserveInsufficient)
      ensures r.Ok? <==>
                constants.redeemEnabled && amount <= old(BalanceOf(balances, env.sender)) &&
                amount <= old(totalSupply) && amount <= reserve
      ensures r.Ok? ==>
                r.value == [BankSend(env.contract, env.sender, [Coin(RESERVE_DENOM, amount)])] &&
                totalSupply == old(totalSupply) - amount &&
                balances == old(balances)[env.sender := old(BalanceOf(balances, env.sender)) - amount] &&
                allowances == old(allowances) &&
                history == old(history) + [RedeemTx(env.sender, amount, constants.symbol, env.block)]
    {
      if !constants.redeemEnabled {
        return Err(FeatureDisabled(RedeemFeature));
      }
      var accountBalance := BalanceOf(balances, env.sender);
      if amount > accountBalance {
        return Err(InsufficientFundsToRedeem(accountBalance, amount));
      }
      var newBalances := balances[env.sender := accountBalance - amount];
      if amount > totalSupply {
        return Err(InsufficientSupply);
      }
      var newSupply: U128 := totalSupply - amount;
      if amount > reserve {
        return Err(ReserveInsufficient);
      }
      SumUpdate(balances, env.sender, accountBalance - amount);
      balances, totalSupply := newBalances, newSupply;
      history := history + [RedeemTx(env.sender, amount, constants.symbol, env.block)];
      r := Ok([BankSend(env.contract, env.sender, [Coin(RESERVE_DENOM, amount)])]);
    }

    // ---------------------------------------------------------------- transfer and send

    method TryTransfer(env: Env, recipient: Address, amount: U128, memo: Option<string>) returns (r: Result<seq<CosmosMsg>>)
      requires Valid()
      modifies this`balances, this`totalSupply, this`allowances, this`history
      ensures Valid()
      ensures Settles(TransferImpl(old(State()), env.sender, recipient, amount, memo, env.block, constants.symbol),
                      old(State()), r, [])
    {
      var res := TransferImpl(State(), env.sender, recipient, amount, memo, env.block, constants.symbol);
      if res.Err? {
        return Err(res.error);
      }
      TransferImplConserves(State(), env.sender, recipient, amount, memo, env.block, constants.symbol);
      Commit(res.value);
      r := Ok([]);
    }

    method TryBatchTransfer(env: Env, actions: seq<TransferAction>) returns (r: Result<seq<CosmosMsg>>)
      requires Valid()
      modifies this`balances, this`totalSupply, this`allowances, this`history
      ensures Valid()
      ensures Settles(BatchTransfer(old(State()), env.sender, actions, env.block, constants.symbol), old(State()), r, [])
    {
      var st := State();
      for i := 0 to |actions|
        invariant BatchTransfer(old(State()), env.sender, actions, env.block, constants.symbol)
                    == BatchTransfer(st, env.sender, actions[i..], env.block, constants.symbol)
      {
        var a := actions[i];
        assert actions[i..][1..] == actions[i + 1..];
        var step := TransferImpl(st, env.sender, a.recipient, a.amount, a.memo, env.block, constants.symbol);
        if step.Err? {
          return Err(step.error);
        }
        st := step.value;
      }
      BatchTransferConserves(old(State()), env.sender, actions, env.block, constants.symbol);
      Commit(st);
      r := Ok([]);
    }

    /** try_send: a transfer, then the receiver notification rule. */
    method TrySend(env: Env, recipient: Address, codeHash: Option<string>, amount: U128, memo: Option<string>,
                   msg: Option<seq<bv8>>) returns (r: Result<seq<CosmosMsg>>)
      requires Valid()
      modifies this`balances, this`totalSupply, this`allowances, this`history
      ensures Valid()
      ensures Settles(TransferImpl(old(State()), env.sender, recipient, amount, memo, env.block, constants.symbol),
                      old(State()), r,
                      ReceiverCallback(receiverHashes, recipient, codeHash, msg, env.sender, env.sender, amount, memo))
    {
      var res := TransferImpl(State(), env.sender, recipient, amount, memo, env.block, constants.symbol);
      if res.Err? {
        return Err(res.error);
      }
      TransferImplConserves(State(), env.sender, recipient, amount, memo, env.block, constants.symbol);
      Commit(res.value);
      r := Ok(ReceiverCallback(receiverHashes, recipient, codeHash, msg, env.sender, env.sender, amount, memo));
    }

    method TryBatchSend(env: Env, actions: seq<SendAction>) returns (r: Result<seq<CosmosMsg>>)
      requires Valid()
      modifies this`balances, this`totalSupply, this`allowances, this`history
      ensures Valid()
      ensures var res := BatchSend(old(State()), [], receiverHashes, env.sender, actions, env.block, constants.symbol);
              (res.Err? ==> r == Err(res.error) && State() == old(State())) &&
              (res.Ok? ==> r == Ok(res.value.1) && State() == res.value.0)
    {
      var st := State();
      var msgs: seq<CosmosMsg> := [];
      for i := 0 to |actions|
        invariant BatchSend(old(State()), [], receiverHashes, env.sender, actions, env.block, constants.symbol)
                    == BatchSend(st, msgs, receiverHashes, env.sender, actions[i..], env.block, constants.symbol)
      {
        var a := actions[i];
        assert actions[i..][1..] == actions[i + 1..];
        var step := TransferImpl(st, env.sender, a.recipient, a.amount, a.memo, env.block, constants.symbol);
        if step.Err? {
          return Err(step.error);
        }
        st := step.value;
        msgs := msgs + ReceiverCallback(receiverHashes, a.recipient, a.codeHash, a.msg, env.sender, env.sender, a.amount, a.memo);
      }
      BatchSendIsBatchTransfer(old(State()), [], receiverHashes, env.sender, actions, env.block, constants.symbol);
      BatchTransferConserves(old(State()), env.sender, AsTransfers(actions), env.block, constants.symbol);
      Commit(st);
      r := Ok(msgs);
    }

    /** try_register_receive: records the sender's code hash for later notifications. */
    method TryRegisterReceive(env: Env, codeHash: string)
      modifies this`receiverHashes
      ensures receiverHashes == old(receiverHashes)[env.sender := codeHash]
    {
      receiverHashes := receiverHashes[env.sender := codeHash];
    }

    // ---------------------------------------------------------------- delegated transfer and send

    method TryTransferFrom(env: Env, owner: Address, recipient: Address, amount: U128, memo: Option<string>)
      returns (r: Result<seq<CosmosMsg>>)
      requires Valid()
      modifies this`balances, this`totalSupply, this`allowances, this`history
      ensures Valid()
      ensures Settles(TransferFromImpl(old(State()), isExpiredAt, env.block, env.sender, owner, recipient, amount, memo,
                                       constants.symbol), old(State()), r, [])
    {
      var res := TransferFromImpl(State(), isExpiredAt, env.block, env.sender, owner, recipient, amount, memo, constants.symbol);
      if res.Err? {
        return Err(res.error);
      }
      TransferFromImplConserves(State(), isExpiredAt, env.block, env.sender, owner, recipient, amount, memo, constants.symbol);
      Commit(res.value);
      r := Ok([]);
    }

    method TryBatchTransferFrom(env: Env, actions: seq<TransferFromAction>) returns (r: Result<seq<CosmosMsg>>)
      requires Valid()
      modifies this`balances, this`totalSupply, this`allowances, this`history
      ensures Valid()
      ensures Settles(BatchTransferFrom(old(State()), isExpiredAt, env.block, env.sender, actions, constants.symbol),
                      old(State()), r, [])
    {
      var st := State();
      for i := 0 to |actions|
        invariant BatchTransferFrom(old(State()), isExpiredAt, env.block, env.sender, actions, constants.symbol)
                    == BatchTransferFrom(st, isExpiredAt, env.block, env.sender, actions[i..], constants.symbol)
      {
        var a := actions[i];
        assert actions[i..][1..] == actions[i + 1..];
        var step := TransferFromImpl(st, isExpiredAt, env.block, env.sender, a.owner, a.recipient, a.amount, a.memo, constants.symbol);
        if step.Err? {
          return Err(step.error);
        }
        st := step.value;
      }
      BatchTransferFromConserves(old(State()), isExpiredAt, env.block, env.sender, actions, constants.symbol);
      Commit(st);
      r := Ok([]);
    }

    /** try_send_from: a delegated transfer, then the notification naming the spender as sender
        and the owner as the source of the funds. */
    method TrySendFrom(env: Env, owner: Address, recipient: Address, codeHash: Option<string>, amount: U128,
                       memo: Option<string>, msg: Option<seq<bv8>>) returns (r: Result<seq<CosmosMsg>>)
      requires Valid()
      modifies this`balances, this`totalSupply, this`allowances, this`history
      ensures Valid()
      ensures Settles(TransferFromImpl(old(State()), isExpiredAt, env.block, env.sender, owner, recipient, amount, memo,
                                       constants.symbol), old(State()), r,
                      ReceiverCallback(receiverHashes, recipient, codeHash, msg, env.sender, owner, amount, memo))
    {
      var res := TransferFromImpl(State(), isExpiredAt, env.block, env.sender, owner, recipient, amount, memo, constants.symbol);
      if res.Err? {
        return Err(res.error);
      }
      TransferFromImplConserves(State(), isExpiredAt, env.block, env.sender, owner, recipient, amount, memo, constants.symbol);
      Commit(res.value);
      r := Ok(ReceiverCallback(receiverHashes, recipient, codeHash, msg, env.sender, owner, amount, memo));
    }

    method TryBatchSendFrom(env: Env, actions: seq<SendFromAction>) returns (r: Result<seq<CosmosMsg>>)
      requires Valid()
      modifies this`balances, this`totalSupply, this`allowances, this`history
      ensures Valid()
      ensures var res := BatchSendFrom(old(State()), [], receiverHashes, isExpiredAt, env.block, env.sender, actions, constants.symbol);
              (res.Err? ==> r == Err(res.error) && State() == old(State())) &&
              (res.Ok? ==> r == Ok(res.value.1) && State() == res.value.0)
    {
      var st := State();
      var msgs: seq<CosmosMsg> := [];
      for i := 0 to |actions|
        invariant BatchSendFrom(old(State()), [], receiverHashes, isExpiredAt, env.block, env.sender, actions, constants.symbol)
                    == BatchSendFrom(st, msgs, receiverHashes, isExpiredAt, env.block, env.sender, actions[i..], constants.symbol)
      {
        var a := actions[i];
        assert actions[i..][1..] == actions[i + 1..];
        var step := TransferFromImpl(st, isExpiredAt, env.block, env.sender, a.owner, a.recipient, a.amount, a.memo, constants.symbol);
        if step.Err? {
          return Err(step.error);
        }
        st := step.value;
        msgs := msgs + ReceiverCallback(receiverHashes, a.recipient, a.codeHash, a.msg, env.sender, a.owner, a.amount, a.memo);
      }
      BatchSendFromIsBatchTransferFrom(old(State()), [], receiverHashes, isExpiredAt, env.block, env.sender, actions, constants.symbol);
      BatchTransferFromConserves(old(State()), isExpiredAt, env.block, env.sender, AsTransferFroms(actions), constants.symbol);
      Commit(st);
      r := Ok(msgs);
    }

    // ---------------------------------------------------------------- burn

    /** try_burn: the sender burns from its own balance; the supply falls by the same amount. */
    method TryBurn(env: Env, amount: U128, memo: Option<string>) returns (r: Result<seq<CosmosMsg>>)
      requires Valid()
      modifies this`balances, this`totalSupply, this`allowances, this`history
      ensures Valid()
      ensures r.Err? ==> State() == old(State())
      ensures !constants.burnEnabled ==> r == Err(FeatureDisabled(BurnFeature))
      ensures constants.burnEnabled && amount > old(BalanceOf(balances, env.sender)) ==>
                r == Err(InsufficientFundsToBurn(old(BalanceOf(balances, env.sender)), amount))
      ensures constants.burnEnabled && amount <= old(BalanceOf(balances, env.sender)) && amount > old(totalSupply) ==>
                r == Err(InsufficientSupply)
      ensures r.Ok? <==> constants.burnEnabled && amount <= old(BalanceOf(balances, env.sender)) && amount <= old(totalSupply)
      ensures r.Ok? ==>
                r.value == [] &&
                totalSupply == old(totalSupply) - amount &&
                balances == old(balances)[env.sender := old(BalanceOf(balances, env.sender)) - amount] &&
                allowances == old(allowances) &&
                history == old(history) + [BurnTx(env.sender, env.sender, amount, constants.symbol, memo, env.block)]
    {
      if !constants.burnEnabled {
        return Err(FeatureDisabled(BurnFeature));
      }
      var accountBalance := BalanceOf(balances, env.sender);
      if amount > accountBalance {
        return Err(InsufficientFundsToBurn(accountBalance, amount));
      }
      var newBalances := balances[env.sender := accountBalance - amount];
      if amount > totalSupply {
        return Err(InsufficientSupply);
      }
      SumUpdate(balances, env.sender, accountBalance - amount);
      balances, totalSupply := newBalances, totalSupply - amount;
      history := history + [BurnTx(env.sender, env.sender, amount, constants.symbol, memo, env.block)];
      r := Ok([]);
    }

    method TryBurnFrom(env: Env, owner: Address, amount: U128, memo: Option<string>) returns (r: Result<seq<CosmosMsg>>)
      requires Valid()
      modifies this`balances, this`totalSupply, this`allowances, this`history
      ensures Valid()
      ensures !constants.burnEnabled ==> r == Err(FeatureDisabled(BurnFeature)) && State() == old(State())
      ensures constants.burnEnabled ==>
                Settles(BurnFrom(old(State()), isExpiredAt, env.block, env.sender, owner, amount, memo, constants.symbol),
                        old(State()), r, [])
    {
      if !constants.burnEnabled {
        return Err(FeatureDisabled(BurnFeature));
      }
      var res := BurnFrom(State(), isExpiredAt, env.block, env.sender, owner, amount, memo, constants.symbol);
      if res.Err? {
        return Err(res.error);
      }
      BurnFromConserves(State(), isExpiredAt, env.block, env.sender, owner, amount, memo, constants.symbol);
      Commit(res.value);
      r := Ok([]);
    }

    /** try_batch_burn_from: the supply is read once, carried through the actions in a local, and
        written once at the end; the result is the same as burning action by action. */
    method TryBatchBurnFrom(env: Env, actions: seq<BurnFromAction>) returns (r: Result<seq<CosmosMsg>>)
      requires Valid()
      modifies this`balances, this`totalSupply, this`allowances, this`history
      ensures Valid()
      ensures !constants.burnEnabled ==> r == Err(FeatureDisabled(BurnFeature)) && State() == old(State())
      ensures constants.burnEnabled ==>
                Settles(BatchBurnFrom(old(State()), isExpiredAt, env.block, env.sender, actions, constants.symbol),
                        old(State()), r, [])
    {
      if !constants.burnEnabled {
        return Err(FeatureDisabled(BurnFeature));
      }
      var st := State();
      var supply: U128 := totalSupply;
      for i := 0 to |actions|
        invariant BatchBurnFrom(old(State()), isExpiredAt, env.block, env.sender, actions, constants.symbol)
                    == BatchBurnFrom(st.(totalSupply := supply), isExpiredAt, env.block, env.sender, actions[i..], constants.symbol)
      {
        var a := actions[i];
        assert actions[i..][1..] == actions[i + 1..];
        var allowed := UseAllowance(st.allowances, a.owner, env.sender, a.amount, isExpiredAt, env.block);
        if allowed.Err? {
          return Err(allowed.error);
        }
        var accountBalance := BalanceOf(st.balances, a.owner);
        if a.amount > accountBalance {
          return Err(InsufficientFundsToBurn(accountBalance, a.amount));
        }
        if a.amount > supply {
          return Err(InsufficientSupply);
        }
        supply := supply - a.amount;
        st := Store(st.balances[a.owner := accountBalance - a.amount], st.totalSupply, allowed.value,
                    st.history + [BurnTx(a.owner, env.sender, a.amount, constants.symbol, a.memo, env.block)]);
      }
      BatchBurnFromEffect(old(State()), isExpiredAt, env.block, env.sender, actions, constants.symbol);
      Commit(st.(totalSupply := supply));
      r := Ok([]);
    }

    // ---------------------------------------------------------------- allowances

    /** try_increase_allowance: writes the record IncreasedAllowance gives for the stored one and
        answers with its amount. */
    method TryIncreaseAllowance(env: Env, spender: Address, amount: U128, expiration: Option<U64>) returns (newAmount: U128)
      modifies this`allowances
      ensures var stored := old(AllowanceOf(allowances, env.sender, spender));
              var written := IncreasedAllowance(stored, isExpiredAt(stored, env.block), amount, expiration);
              allowances == old(allowances)[(env.sender, spender) := written] && newAmount == written.amount
    {
      var allowance := AllowanceOf(allowances, env.sender, spender);
      if isExpiredAt(allowance, env.block) {
        allowance := Allowance(amount, None);
      } else {
        allowance := allowance.(amount := SaturatingAdd(allowance.amount, amount));
      }
      if expiration.Some? {
        allowance := allowance.(expiration := expiration);
      }
      newAmount := allowance.amount;
      allowances := allowances[(env.sender, spender) := allowance];
    }

    /** try_decrease_allowance: writes the record DecreasedAllowance gives for the stored one and
        answers with its amount. */
    method TryDecreaseAllowance(env: Env, spender: Address, amount: U128, expiration: Option<U64>) returns (newAmount: U128)
      modifies this`allowances
      ensures var stored := old(AllowanceOf(allowances, env.sender, spender));
              var written := DecreasedAllowance(stored, isExpiredAt(stored, env.block), amount, expiration);
              allowances == old(allowances)[(env.sender, spender) := written] && newAmount == written.amount
    {
      var allowance := AllowanceOf(allowances, env.sender, spender);
      if isExpiredAt(allowance, env.block) {
        allowance := Allowance(0, None);
      } else {
        allowance := allowance.(amount := SaturatingSub(allowance.amount, amount));
      }
      if expiration.Some? {
        allowance := allowance.(expiration := expiration);
      }
      newAmount := allowance.amount;
      allowances := allowances[(env.sender, spender) := allowance];
    }

    // ---------------------------------------------------------------- mint

    /** try_mint: mint disabled, sender not a minter, supply overflow, then the credit of
        try_mint_impl; on success supply and recipient balance each rise by the amount. */
    method TryMint(env: Env, recipient: Address, amount: U128, memo: Option<string>) returns (r: Result<seq<CosmosMsg>>)
      requires Valid()
      modifies this`balances, this`totalSupply, this`allowances, this`history
      ensures Valid()
      ensures r.Err? ==> State() == old(State())
      ensures !constants.mintEnabled ==> r == Err(FeatureDisabled(MintFeature))
      ensures constants.mintEnabled && env.sender !in minters ==> r == Err(NotAMinter)
      ensures constants.mintEnabled && env.sender in minters && old(totalSupply) + amount > MAX_U128 ==> r == Err(SupplyOverflow)
      ensures r.Ok? <==>
                constants.mintEnabled && env.sender in minters && old(totalSupply) + amount <= MAX_U128 &&
                old(BalanceOf(balances, recipient)) + amount <= MAX_U128
      ensures r.Ok? ==>
                r.value == [] &&
                totalSupply == old(totalSupply) + amount &&
                BalanceOf(balances, recipient) == old(BalanceOf(balances, recipient)) + amount &&
                (forall a :: a != recipient ==> BalanceOf(balances, a) == old(BalanceOf(balances, a))) &&
                allowances == old(allowances) &&
                history == old(history) + [MintTx(env.sender, recipient, amount, constants.symbol, memo, env.block)]
    {
      if !constants.mintEnabled {
        return Err(FeatureDisabled(MintFeature));
      }
      if env.sender !in minters {
        return Err(NotAMinter);
      }
      if totalSupply + amount > MAX_U128 {
        return Err(SupplyOverflow);
      }
      var raised := State().(totalSupply := totalSupply + amount);
      var res := MintImpl(raised, env.sender, recipient, amount, memo, env.block, constants.symbol);
      if res.Err? {
        return Err(res.error);
      }
      MintImplAddsToSum(raised, env.sender, recipient, amount, memo, env.block, constants.symbol);
      Commit(res.value);
      r := Ok([]);
    }

    /** try_batch_mint: after the feature and minter checks, a first loop adds up the amounts with
        checked additions before anyone is credited; then every action is credited in order. */
    method TryBatchMint(env: Env, actions: seq<MintAction>) returns (r: Result<seq<CosmosMsg>>)
      requires Valid()
      modifies this`balances, this`totalSupply, this`allowances, this`history
      ensures Valid()
      ensures !constants.mintEnabled ==> r == Err(FeatureDisabled(MintFeature)) && State() == old(State())
      ensures constants.mintEnabled && env.sender !in minters ==> r == Err(NotAMinter) && State() == old(State())
      ensures constants.mintEnabled && env.sender in minters ==>
                Settles(BatchMint(old(State()), env.sender, actions, env.block, constants.symbol), old(State()), r, [])
    {
      if !constants.mintEnabled {
        return Err(FeatureDisabled(MintFeature));
      }
      if env.sender !in minters {
        return Err(NotAMinter);
      }
      var st := State();
      var supply: U128 := st.totalSupply;
      for i := 0 to |actions|
        invariant supply == st.totalSupply + MintTotal(actions[..i])
        invariant State() == st == old(State())
      {
        assert actions[..i + 1] == actions[..i] + [actions[i]];
        MintTotalAppend(actions[..i], [actions[i]]);
        assert MintTotal([actions[i]]) == actions[i].amount by {
          assert [actions[i]][1..] == [];
        }
        if supply + actions[i].amount > MAX_U128 {
          assert actions == actions[..i + 1] + actions[i + 1..];
          MintTotalAppend(actions[..i + 1], actions[i + 1..]);
          return Err(SupplyOverflow);
        }
        supply := supply + actions[i].amount;
      }
      assert actions[..|actions|] == actions;
      st := st.(totalSupply := supply);
      for i := 0 to |actions|
        invariant BatchMint(old(State()), env.sender, actions, env.block, constants.symbol)
                    == MintAll(st, env.sender, actions[i..], env.block, constants.symbol)
      {
        var a := actions[i];
        assert actions[i..][1..] == actions[i + 1..];
        var step := MintImpl(st, env.sender, a.recipient, a.amount, a.memo, env.block, constants.symbol);
        if step.Err? {
          return Err(step.error);
        }
        st := step.value;
      }
      BatchMintEffect(old(State()), env.sender, actions, env.block, constants.symbol);
      Commit(st);
      r := Ok([]);
    }
  }
}
