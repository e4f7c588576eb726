/** The batch handlers of src/handle.rs as left folds of the single-action rules: the actions run
    in order, each on the state the previous one left, and the first failure fails the whole
    batch. The loops in module Handle are proved against these folds. */
module Batches {
  import opened Types
  import opened Sums
  import opened Steps

  // ---------------------------------------------------------------- transfer and send

  function BatchTransfer(s: Store, sender: Address, actions: seq<TransferAction>, block: Block, symbol: string)
    : Result<Store>
    decreases |actions|
  {
    if actions == [] then Ok(s)
    else
      var a := actions[0];
      match TransferImpl(s, sender, a.recipient, a.amount, a.memo, block, symbol)
      case Err(e) => Err(e)
      case Ok(next) => BatchTransfer(next, sender, actions[1..], block, symbol)
  }

  /** The send batch carries the outbound messages gathered so far in `msgs`. */
  function BatchSend(s: Store, msgs: seq<CosmosMsg>, registered: map<Address, string>, sender: Address,
                     actions: seq<SendAction>, block: Block, symbol: string): Result<(Store, seq<CosmosMsg>)>
    decreases |actions|
  {
    if actions == [] then Ok((s, msgs))
    else
      var a := actions[0];
      match TransferImpl(s, sender, a.recipient, a.amount, a.memo, block, symbol)
      case Err(e) => Err(e)
      case Ok(next) =>
        var callback := ReceiverCallback(registered, a.recipient, a.codeHash, a.msg, sender, sender, a.amount, a.memo);
        BatchSend(next, msgs + callback, registered, sender, actions[1..], block, symbol)
  }

  function BatchTransferFrom(s: Store, expiredAt: ExpiryCheck, block: Block, spender: Address,
                             actions: seq<TransferFromAction>, symbol: string): Result<Store>
    decreases |actions|
  {
    if actions == [] then Ok(s)
    else
      var a := actions[0];
      match TransferFromImpl(s, expiredAt, block, spender, a.owner, a.recipient, a.amount, a.memo, symbol)
      case Err(e) => Err(e)
      case Ok(next) => BatchTransferFrom(next, expiredAt, block, spender, actions[1..], symbol)
  }

  function BatchSendFrom(s: Store, msgs: seq<CosmosMsg>, registered: map<Address, string>, expiredAt: ExpiryCheck,
                         block: Block, spender: Address, actions: seq<SendFromAction>, symbol: string)
    : Result<(Store, seq<CosmosMsg>)>
    decreases |actions|
  {
    if actions == [] then Ok((s, msgs))
    else
      var a := actions[0];
      match TransferFromImpl(s, expiredAt, block, spender, a.owner, a.recipient, a.amount, a.memo, symbol)
      case Err(e) => Err(e)
      case Ok(next) =>
        var callback := ReceiverCallback(registered, a.recipient, a.codeHash, a.msg, spender, a.owner, a.amount, a.memo);
        BatchSendFrom(next, msgs + callback, registered, expiredAt, block, spender, actions[1..], symbol)
  }

  /** A transfer batch keeps the sum of balances and the supply, and logs one record per action. */
  lemma {:induction false} BatchTransferConserves(s: Store, sender: Address, actions: seq<TransferAction>,
                                                  block: Block, symbol: string)
    requires BatchTransfer(s, sender, actions, block, symbol).Ok?
    ensures Sum(BatchTransfer(s, sender, actions, block, symbol).value.balances) == Sum(s.balances)
    ensures BatchTransfer(s, sender, actions, block, symbol).value.totalSupply == s.totalSupply
    ensures BatchTransfer(s, sender, actions, block, symbol).value.allowances == s.allowances
    ensures |BatchTransfer(s, sender, actions, block, symbol).value.history| == |s.history| + |actions|
    decreases |actions|
  {
    if actions != [] {
      var a := actions[0];
      TransferImplConserves(s, sender, a.recipient, a.amount, a.memo, block, symbol);
      var next := TransferImpl(s, sender, a.recipient, a.amount, a.memo, block, symbol).value;
      BatchTransferConserves(next, sender, actions[1..], block, symbol);
    }
  }

  function AsTransfers(actions: seq<SendAction>): (r: seq<TransferAction>)
    ensures |r| == |actions|
  {
    if actions == [] then []
    else [TransferAction(actions[0].recipient, actions[0].amount, actions[0].memo)] + AsTransfers(actions[1..])
  }

  /** A send batch moves balances exactly as the transfer batch of the same recipients, amounts
      and memos; on top it appends at most one notification per action to the messages. */
  lemma {:induction false} BatchSendIsBatchTransfer(s: Store, msgs: seq<CosmosMsg>, registered: map<Address, string>,
                                                    sender: Address, actions: seq<SendAction>, block: Block, symbol: string)
    ensures BatchSend(s, msgs, registered, sender, actions, block, symbol).Ok? <==>
              BatchTransfer(s, sender, AsTransfers(actions), block, symbol).Ok?
    ensures BatchSend(s, msgs, registered, sender, actions, block, symbol).Err? ==>
              BatchSend(s, msgs, registered, sender, actions, block, symbol).error
                == BatchTransfer(s, sender, AsTransfers(actions), block, symbol).error
    ensures BatchSend(s, msgs, registered, sender, actions, block, symbol).Ok? ==>
              var (store, out) := BatchSend(s, msgs, registered, sender, actions, block, symbol).value;
              store == BatchTransfer(s, sender, AsTransfers(actions), block, symbol).value &&
              msgs <= out && |out| <= |msgs| + |actions|
    decreases |actions|
  {
    if actions != [] {
      var a := actions[0];
      assert AsTransfers(actions)[0] == TransferAction(a.recipient, a.amount, a.memo);
      assert AsTransfers(actions)[1..] == AsTransfers(actions[1..]);
      match TransferImpl(s, sender, a.recipient, a.amount, a.memo, block, symbol)
      case Err(e) =>
      case Ok(next) =>
        var callback := ReceiverCallback(registered, a.recipient, a.codeHash, a.msg, sender, sender, a.amount, a.memo);
        BatchSendIsBatchTransfer(next, msgs + callback, registered, sender, actions[1..], block, symbol);
    }
  }

  lemma {:induction false} BatchTransferFromConserves(s: Store, expiredAt: ExpiryCheck, block: Block, spender: Address,
                                                      actions: seq<TransferFromAction>, symbol: string)
    requires BatchTransferFrom(s, expiredAt, block, spender, actions, symbol).Ok?
    ensures Sum(BatchTransferFrom(s, expiredAt, block, spender, actions, symbol).value.balances) == Sum(s.balances)
    ensures BatchTransferFrom(s, expiredAt, block, spender, actions, symbol).value.totalSupply == s.totalSupply
    ensures |BatchTransferFrom(s, expiredAt, block, spender, actions, symbol).value.history| == |s.history| + |actions|
    decreases |actions|
  {
    if actions != [] {
      var a := actions[0];
      TransferFromImplConserves(s, expiredAt, block, spender, a.owner, a.recipient, a.amount, a.memo, symbol);
      var next := TransferFromImpl(s, expiredAt, block, spender, a.owner, a.recipient, a.amount, a.memo, symbol).value;
      BatchTransferFromConserves(next, expiredAt, block, spender, actions[1..], symbol);
    }
  }

  function AsTransferFroms(actions: seq<SendFromAction>): (r: seq<TransferFromAction>)
    ensures |r| == |actions|
  {
    if actions == [] then []
    else [TransferFromAction(actions[0].owner, actions[0].recipient, actions[0].amount, actions[0].memo)]
         + AsTransferFroms(actions[1..])
  }

  /** A send-from batch moves balances and allowances exactly as the transfer-from batch of the
      same owners, recipients, amounts and memos, adding at most one notification per action. */
  lemma {:induction false} BatchSendFromIsBatchTransferFrom(s: Store, msgs: seq<CosmosMsg>, registered: map<Address, string>,
                                                            expiredAt: ExpiryCheck, block: Block, spender: Address,
                                                            actions: seq<SendFromAction>, symbol: string)
    ensures BatchSendFrom(s, msgs, registered, expiredAt, block, spender, actions, symbol).Ok? <==>
              BatchTransferFrom(s, expiredAt, block, spender, AsTransferFroms(actions), symbol).Ok?
    ensures BatchSendFrom(s, msgs, registered, expiredAt, block, spender, actions, symbol).Err? ==>
              BatchSendFrom(s, msgs, registered, expiredAt, block, spender, actions, symbol).error
                == BatchTransferFrom(s, expiredAt, block, spender, AsTransferFroms(actions), symbol).error
    ensures BatchSendFrom(s, msgs, registered, expiredAt, block, spender, actions, symbol).Ok? ==>
              var (store, out) := BatchSendFrom(s, msgs, registered, expiredAt, block, spender, actions, symbol).value;
              store == BatchTransferFrom(s, expiredAt, block, spender, AsTransferFroms(actions), symbol).value &&
              msgs <= out && |out| <= |msgs| + |actions|
    decreases |actions|
  {
    if actions != [] {
      var a := actions[0];
      assert AsTransferFroms(actions)[0] == TransferFromAction(a.owner, a.recipient, a.amount, a.memo);
      assert AsTransferFroms(actions)[1..] == AsTransferFroms(actions[1..]);
      match TransferFromImpl(s, expiredAt, block, spender, a.owner, a.recipient, a.amount, a.memo, symbol)
      case Err(e) =>
      case Ok(next) =>
        var callback := ReceiverCallback(registered, a.recipient, a.codeHash, a.msg, spender, a.owner, a.amount, a.memo);
        BatchSendFromIsBatchTransferFrom(next, msgs + callback, registered, expiredAt, block, spender, actions[1..], symbol);
    }
  }

  // ---------------------------------------------------------------- batch mint

  function MintTotal(actions: seq<MintAction>): nat {
    if actions == [] then 0 else actions[0].amount + MintTotal(actions[1..])
  }

  /** What a mint batch credits to one account: the sum of the actions naming it. */
  function MintedTo(actions: seq<MintAction>, account: Address): nat {
    if actions == [] then 0
    else (if actions[0].recipient == account then actions[0].amount else 0) + MintedTo(actions[1..], account)
  }

  lemma {:induction false} MintTotalAppend(a: seq<MintAction>, b: seq<MintAction>)
    ensures MintTotal(a + b) == MintTotal(a) + MintTotal(b)
  {
    if a != [] {
      assert (a + b)[1..] == a[1..] + b;
      MintTotalAppend(a[1..], b);
    } else {
      assert a + b == b;
    }
  }

  /** The credit loop of try_batch_mint, run after the supply has been raised once. */
  function MintAll(s: Store, minter: Address, actions: seq<MintAction>, block: Block, symbol: string): Result<Store>
    decreases |actions|
  {
    if actions == [] then Ok(s)
    else
      var a := actions[0];
      match MintImpl(s, minter, a.recipient, a.amount, a.memo, block, symbol)
      case Err(e) => Err(e)
      case Ok(next) => MintAll(next, minter, actions[1..], block, symbol)
  }

  /** try_batch_mint after its feature and minter checks: the supply check covers the sum of all
      amounts before any recipient is credited. */
  function BatchMint(s: Store, minter: Address, actions: seq<MintAction>, block: Block, symbol: string): Result<Store> {
    if s.totalSupply + MintTotal(actions) > MAX_U128 then Err(SupplyOverflow)
    else MintAll(s.(totalSupply := s.totalSupply + MintTotal(actions)), minter, actions, block, symbol)
  }

  /** The credits of a mint batch: every account gains the amounts of the actions naming it, the
      sum of balances grows by the batch total, the supply field is left as it was. */
  lemma {:induction false} MintAllCredits(s: Store, minter: Address, actions: seq<MintAction>, block: Block, symbol: string)
    requires MintAll(s, minter, actions, block, symbol).Ok?
    ensures forall a :: BalanceOf(MintAll(s, minter, actions, block, symbol).value.balances, a)
                          == BalanceOf(s.balances, a) + MintedTo(actions, a)
    ensures Sum(MintAll(s, minter, actions, block, symbol).value.balances) == Sum(s.balances) + MintTotal(actions)
    ensures MintAll(s, minter, actions, block, symbol).value.totalSupply == s.totalSupply
    ensures MintAll(s, minter, actions, block, symbol).value.allowances == s.allowances
    ensures |MintAll(s, minter, actions, block, symbol).value.history| == |s.history| + |actions|
    decreases |actions|
  {
    if actions != [] {
      var a := actions[0];
      MintImplAddsToSum(s, minter, a.recipient, a.amount, a.memo, block, symbol);
      var next := MintImpl(s, minter, a.recipient, a.amount, a.memo, block, symbol).value;
      MintAllCredits(next, minter, actions[1..], block, symbol);
    }
  }

  /** The credits never overflow while the balances plus what is still to be minted fit in u128. */
  lemma {:induction false} MintAllSucceeds(s: Store, minter: Address, actions: seq<MintAction>, block: Block, symbol: string)
    requires Sum(s.balances) + MintTotal(actions) <= MAX_U128
    ensures MintAll(s, minter, actions, block, symbol).Ok?
    decreases |actions|
  {
    if actions != [] {
      var a := actions[0];
      MintImplSucceedsWithinSupply(s, minter, a.recipient, a.amount, a.memo, block, symbol);
      MintImplAddsToSum(s, minter, a.recipient, a.amount, a.memo, block, symbol);
      var next := MintImpl(s, minter, a.recipient, a.amount, a.memo, block, symbol).value;
      MintAllSucceeds(next, minter, actions[1..], block, symbol);
    }
  }

  /** From a conserved state a mint batch succeeds exactly when the supply plus the batch total
      fits in u128; the new supply is the old plus that total, each recipient gains its amounts,
      and the invariant holds again. */
  lemma BatchMintEffect(s: Store, minter: Address, actions: seq<MintAction>, block: Block, symbol: string)
    requires Conserved(s)
    ensures BatchMint(s, minter, actions, block, symbol).Ok? <==> s.totalSupply + MintTotal(actions) <= MAX_U128
    ensures BatchMint(s, minter, actions, block, symbol).Err? ==>
              BatchMint(s, minter, actions, block, symbol).error == SupplyOverflow
    ensures BatchMint(s, minter, actions, block, symbol).Ok? ==>
              var t := BatchMint(s, minter, actions, block, symbol).value;
              Conserved(t) && t.totalSupply == s.totalSupply + MintTotal(actions) &&
              (forall a :: BalanceOf(t.balances, a) == BalanceOf(s.balances, a) + MintedTo(actions, a))
  {
    if s.totalSupply + MintTotal(actions) <= MAX_U128 {
      var raised := s.(totalSupply := s.totalSupply + MintTotal(actions));
      MintAllSucceeds(raised, minter, actions, block, symbol);
      MintAllCredits(raised, minter, actions, block, symbol);
    }
  }

  // ---------------------------------------------------------------- batch burn_from

  function BurnTotal(actions: seq<BurnFromAction>): nat {
    if actions == [] then 0 else actions[0].amount + BurnTotal(actions[1..])
  }

  /** What a burn batch debits from one account: the sum of the actions naming it as owner. */
  function BurnedFrom(actions: seq<BurnFromAction>, account: Address): nat {
    if actions == [] then 0
    else (if actions[0].owner == account then actions[0].amount else 0) + BurnedFrom(actions[1..], account)
  }

  /** try_batch_burn_from after its feature check, as if each action wrote the supply; the loop in
      module Handle carries the supply in a local instead and is proved equal to this. */
  function BatchBurnFrom(s: Store, expiredAt: ExpiryCheck, block: Block, spender: Address,
                         actions: seq<BurnFromAction>, symbol: string): Result<Store>
    decreases |actions|
  {
    if actions == [] then Ok(s)
    else
      var a := actions[0];
      match BurnFrom(s, expiredAt, block, spender, a.owner, a.amount, a.memo, symbol)
      case Err(e) => Err(e)
      case Ok(next) => BatchBurnFrom(next, expiredAt, block, spender, actions[1..], symbol)
  }

  /** A burn batch lowers the supply, once, by the sum of its amounts, lowers each owner's balance
      by the amounts of the actions naming it, and keeps the invariant. */
  lemma {:induction false} BatchBurnFromEffect(s: Store, expiredAt: ExpiryCheck, block: Block, spender: Address,
                                               actions: seq<BurnFromAction>, symbol: string)
    requires Conserved(s)
    requires BatchBurnFrom(s, expiredAt, block, spender, actions, symbol).Ok?
    ensures BurnTotal(actions) <= s.totalSupply
    ensures BatchBurnFrom(s, expiredAt, block, spender, actions, symbol).value.totalSupply == s.totalSupply - BurnTotal(actions)
    ensures forall a :: BurnedFrom(actions, a) <= BalanceOf(s.balances, a) &&
                        BalanceOf(BatchBurnFrom(s, expiredAt, block, spender, actions, symbol).value.balances, a)
                          == BalanceOf(s.balances, a) - BurnedFrom(actions, a)
    ensures Conserved(BatchBurnFrom(s, expiredAt, block, spender, actions, symbol).value)
    ensures |BatchBurnFrom(s, expiredAt, block, spender, actions, symbol).value.history| == |s.history| + |actions|
    decreases |actions|
  {
    if actions != [] {
      var a := actions[0];
      BurnFromConserves(s, expiredAt, block, spender, a.owner, a.amount, a.memo, symbol);
      var next := BurnFrom(s, expiredAt, block, spender, a.owner, a.amount, a.memo, symbol).value;
      BatchBurnFromEffect(next, expiredAt, block, spender, actions[1..], symbol);
    }
  }
}
