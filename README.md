# Fungible-token ledger — Dafny model

This project models the accounting core of a fungible-token ledger contract:

- the ledger handlers of `src/handle.rs`: deposit and redeem against the `ughm` reserve, transfer and send, delegated transfer and send through allowances, allowance increase and decrease, mint, and burn, each with its batch form;
- the read-only queries of `src/query.rs`: the viewing-key gate in front of the private queries, the exchange rate, token info, balance and allowance.

The stored state is a class, `Handle.Ledger`. Its fields are:

- balances (address → u128);
- the total supply;
- allowances ((owner, spender) → amount and optional expiration);
- the minter list;
- the registered receiver code hashes;
- the append-only transaction history.

The feature flags and the token's name, symbol and decimals are a constant record.

The single-action rules are pure functions from a `Store` value to `Ok(new store)` or `Err(error kind)`. They live in module `Steps`. The batch handlers are left folds of those rules in module `Batches`: the first failing action fails the whole batch.

Each method of `Ledger` reads its fields and works on local copies in the source's order. It writes the fields back only when the whole call succeeds. The method's postcondition ties the new state and the result to the fold or rule applied to the old state. Every loop is proved against its fold with a loop invariant.

The contract has writes that happen before a later check can still fail, for example:

- redeem writes the balance before its supply and reserve checks;
- burn_from consumes the allowance before its balance check;
- batch mint writes the supply before it credits anyone.

The contract relies on the host to discard those writes when the call fails. Accordingly, every failing call here leaves all fields unchanged.

The global invariant is `Ledger.Valid()`: the balances add up to the total supply (`Steps.Conserved`, with `Sums.Sum` the sum of a balance map). Every handler that changes balances or the supply requires it and re-establishes it. The allowance and receiver-registration handlers may change only the allowances or the registered hashes, so the invariant cannot be affected by them.

Integers are unbounded in Dafny. The u128 width is the subset type `U128`. Every checked add or subtract of the source is an explicit range test that leads to the matching error. Saturating arithmetic is an explicit clamp.

## Model

| member | source | states |
|---|---|---|
| Steps.PerformTransfer | src/handle.rs:958-984 | fails with InsufficientFunds(balance, amount) exactly when amount exceeds the sender's balance; fails with the credit overflow exactly when the debit succeeds, sender and recipient differ, and the recipient's balance plus amount passes the u128 maximum; otherwise debits the sender and credits the recipient by amount; a self-transfer leaves that balance as it was; all other accounts are unchanged |
| Steps.PerformTransferConserves | src/handle.rs:958-984 | a successful transfer keeps the sum of all balances |
| Steps.PerformTransferSucceedsWithinSupply | src/handle.rs:975-981 | while the balances add up to at most the u128 maximum, a transfer the sender can cover never fails with the credit overflow |
| Steps.TransferWholeBalance | src/handle.rs:964-973 | sending exactly the whole balance succeeds and empties the sender; one unit more fails with InsufficientFunds(balance, balance + 1) |
| Steps.UseAllowance | src/handle.rs:383-404 | an expired allowance fails with InsufficientAllowance(0, amount); a live one smaller than amount fails with InsufficientAllowance(stored, amount); it succeeds exactly when live and covering; on success only that record's amount drops, by exactly amount; its expiration and every other record stay as they were |
| Steps.IncreasedAllowance | src/handle.rs:740-750 | an expired record is reset to amount delta with no expiration; a live one grows by delta, saturating at the u128 maximum; a supplied expiration always overwrites the stored one |
| Steps.DecreasedAllowance | src/handle.rs:785-795 | an expired record is reset to 0 with no expiration; a live one shrinks by delta, saturating at 0; a supplied expiration always overwrites the stored one |
| Steps.IncreaseThenDecreaseRestores | src/handle.rs:740-750 | increasing a live allowance and then decreasing it by the same amount gives back the original record when the increase did not saturate |
| Steps.TransferImpl | src/handle.rs:156-180 | fails exactly when perform_transfer fails, with its error; on success the balances are perform_transfer's, supply and allowances are untouched, and one transfer record with the sender as owner and sender is appended |
| Steps.TransferFromImpl | src/handle.rs:406-435 | an allowance failure is reported before the balances are looked at; otherwise it succeeds exactly when perform_transfer from the owner succeeds, fails with perform_transfer's own error when that fails, and on success the allowance is consumed, the balances move, supply is untouched, and one transfer record naming owner and spender is appended |
| Steps.TransferImplConserves | src/handle.rs:156-180 | a successful transfer keeps the sum of balances and the total supply |
| Steps.TransferFromImplConserves | src/handle.rs:406-435 | a successful delegated transfer keeps the sum of balances and the total supply |
| Steps.ReceiverCallback | src/handle.rs:228-256 | at most one notification; exactly one when a code hash is given or the recipient has registered one; it carries the given hash if any and the registered one otherwise, and the recipient, sender, from, amount, memo and message |
| Steps.MintImpl | src/handle.rs:1025-1057 | fails with the balance overflow exactly when the recipient's balance plus amount passes the u128 maximum; on success only the recipient's balance rises, by amount, and one mint record is appended |
| Steps.MintImplAddsToSum | src/handle.rs:1036-1052 | a successful mint credit adds exactly its amount to the sum of balances |
| Steps.MintImplSucceedsWithinSupply | src/handle.rs:1040-1049 | the credit overflow of try_mint_impl cannot happen once the balances plus the amount fit in u128 |
| Steps.CreditFitsUnderSupply | src/handle.rs:44-62 | under the invariant, a credit that the supply can absorb fits every balance, so deposit's balance-overflow guard cannot fire after the supply check |
| Steps.CoveredDebitWithinSupply | src/handle.rs:99-119 | under the invariant, a debit the account covers is covered by the supply, so the supply guards of redeem and burn cannot fire after the balance check |
| Steps.BurnFrom | src/handle.rs:614-650 | allowance failures come first; then InsufficientFundsToBurn(balance, amount) when the owner cannot cover the amount, then InsufficientSupply; on success the owner's balance and the supply each fall by amount, the allowance is consumed, and one burn record naming owner and spender is appended |
| Steps.BurnFromConserves | src/handle.rs:614-640 | under the invariant the supply check of burn_from never fails, and a successful burn keeps the invariant |
| Batches.BatchTransferConserves | src/handle.rs:201-226 | a successful transfer batch keeps the sum of balances, the supply and the allowances, and logs one record per action |
| Batches.BatchSendIsBatchTransfer | src/handle.rs:329-358 | a send batch succeeds or fails, with the same error, exactly as the transfer batch of the same recipients, amounts and memos, and leaves the same state; it only appends messages, at most one per action |
| Batches.BatchTransferFromConserves | src/handle.rs:458-487 | a successful delegated transfer batch keeps the sum of balances and the supply and logs one record per action |
| Batches.BatchSendFromIsBatchTransferFrom | src/handle.rs:564-594 | a send-from batch behaves exactly as the transfer-from batch of the same actions, and only appends messages, at most one per action |
| Batches.MintTotalAppend | src/handle.rs:1135-1144 | the total of a batch's amounts is additive over concatenation, the fact the up-front supply loop is proved with |
| Batches.MintAllCredits | src/handle.rs:1147-1158 | crediting a mint batch gives each account exactly the amounts of the actions naming it, adds the batch total to the sum of balances, leaves supply and allowances alone, and logs one record per action |
| Batches.MintAllSucceeds | src/handle.rs:1147-1158 | the per-recipient credit overflow cannot fire when the balances plus the batch total fit in u128 |
| Batches.BatchMintEffect | src/handle.rs:1132-1158 | under the invariant, a mint batch succeeds exactly when the supply plus the sum of all amounts fits in u128, and otherwise fails with the supply overflow before any credit; on success the supply is the old supply plus that sum, each account gains its actions' amounts, and the invariant holds |
| Batches.BatchBurnFromEffect | src/handle.rs:676-719 | under the invariant, a successful burn batch has a total at most the supply, leaves the supply at the old supply minus that total, lowers each owner's balance by exactly the amounts of the actions naming it, keeps the invariant and logs one record per action |
| Handle.DepositedAmount | src/handle.rs:19-29 | the sent coins are accepted exactly when every one is of the reserve denomination, otherwise UnsupportedToken; the accepted amount is the last coin's, not the sum |
| Handle.Ledger.TryDeposit | src/handle.rs:15-80 | the errors come in the order unsupported denomination, nothing sent, deposit disabled, supply overflow, balance overflow, and a failure changes nothing; on success supply and the sender's balance both rise by the last coin's amount, one deposit record in the reserve denomination is appended, and the invariant is kept |
| Handle.Ledger.TryRedeem | src/handle.rs:82-154 | fails when redeem is disabled, then when the amount exceeds the sender's balance, then the supply, then the contract's reserve, changing nothing; on success balance and supply each fall by the amount and exactly one bank send of that amount of the reserve denomination goes from the contract to the sender |
| Handle.Ledger.TryTransfer | src/handle.rs:182-199 | the call ends as try_transfer_impl on the old state says: its error with nothing changed, or its new state with no messages; the invariant is kept |
| Handle.Ledger.TryBatchTransfer | src/handle.rs:201-226 | the loop's result is the transfer batch fold on the old state: its first error with nothing changed, or its final state; the invariant is kept |
| Handle.Ledger.TrySend | src/handle.rs:259-327 | a transfer as try_transfer_impl says, answered with the receiver notification rule's messages |
| Handle.Ledger.TryBatchSend | src/handle.rs:329-358 | the loop's result is the send batch fold on the old state, with the messages gathered in order; the invariant is kept |
| Handle.Ledger.TryRegisterReceive | src/handle.rs:360-374 | the sender's code hash is recorded, overwriting any earlier one, and nothing else changes |
| Handle.Ledger.TryTransferFrom | src/handle.rs:437-456 | the call ends as try_transfer_from_impl on the old state says; the invariant is kept |
| Handle.Ledger.TryBatchTransferFrom | src/handle.rs:458-487 | the loop's result is the delegated transfer batch fold on the old state; the invariant is kept |
| Handle.Ledger.TrySendFrom | src/handle.rs:489-562 | a delegated transfer, answered with the notification naming the spender as sender and the owner as from |
| Handle.Ledger.TryBatchSendFrom | src/handle.rs:564-594 | the loop's result is the send-from batch fold on the old state, with the messages gathered in order; the invariant is kept |
| Handle.Ledger.TryBurn | src/handle.rs:897-956 | fails when burn is disabled, then with InsufficientFundsToBurn, then InsufficientSupply, changing nothing; on success the sender's balance and the supply each fall by the amount and one burn record with the sender as owner and burner is appended |
| Handle.Ledger.TryBurnFrom | src/handle.rs:596-659 | fails when burn is disabled; otherwise ends as the burn_from rule on the old state says; the invariant is kept |
| Handle.Ledger.TryBatchBurnFrom | src/handle.rs:661-728 | the loop carries the supply in a local and writes it once, and its result equals the fold of the burn_from rule on the old state; the invariant is kept |
| Handle.Ledger.TryIncreaseAllowance | src/handle.rs:730-773 | writes exactly the record IncreasedAllowance gives for the stored one, whether or not expired, and answers its amount; nothing else changes |
| Handle.Ledger.TryDecreaseAllowance | src/handle.rs:775-818 | writes exactly the record DecreasedAllowance gives for the stored one and answers its amount; nothing else changes |
| Handle.Ledger.TryMint | src/handle.rs:1059-1110 | fails when mint is disabled, then when the sender is not a minter, then on supply overflow, changing nothing; succeeds exactly when those pass and the credit fits; on success supply and the recipient's balance rise by the amount, every other balance is unchanged, and the invariant is kept |
| Handle.Ledger.TryBatchMint | src/handle.rs:1112-1167 | after the feature and minter checks, the first loop sums all amounts with checked adds before anyone is credited, and the call ends as the batch mint rule on the old state says; the invariant is kept |
| Query.FirstAuthenticated | src/query.rs:14-43 | finds the first candidate, in order, that has a stored key the presented key matches, and none exactly when no candidate does; an address without a stored key never matches |
| Query.ViewingKeysQueries | src/query.rs:8-48 | the query is answered exactly when some candidate address authenticates, with the answer of the query itself; otherwise the one generic viewing-key error, which carries nothing about why the query was refused |
| Query.NoStoredKeyNeverAuthenticates | src/query.rs:19-22 | a query whose candidates have no stored key is refused, whatever the key check says |
| Query.Answer | src/query.rs:24-41 | an authenticated query is answered with its own result, never with the viewing-key error: a balance query with the stored balance, an allowance query with the stored allowance, a history query with its account and page size, and a missing page number means page 0 |
| Query.QueryBalance | src/query.rs:145-154 | reports the stored balance, 0 for an account never credited |
| Query.BalanceAnswerWithinSupply | src/query.rs:151 | under the ledger invariant a reported balance never exceeds the total supply |
| Query.QueryAllowance | src/query.rs:163-179 | reports the stored amount and expiration as stored, without applying expiry; a missing record reads as 0 with no expiration |
| Query.Pow10FitsU128 | src/query.rs:59-63 | every power of ten up to 10^38 fits in u128 |
| Query.QueryExchangeRate | src/query.rs:50-72 | with deposit and redeem both disabled, rate 0 and an empty denomination; otherwise a rate of at least 1, which for 6 or more decimals is denominated "SCRT" and satisfies rate × 10^6 = 10^decimals, and for fewer decimals is denominated by the token symbol and satisfies rate × 10^decimals = 10^6 |
| Query.QueryTokenInfo | src/query.rs:74-90 | reports name, symbol and decimals; the total supply is present exactly when it is configured public, and is then the stored supply |

## Left out

- Address resolution (`canonical_address`) and serialization (`to_binary`, building the callback and bank messages): addresses are taken as already canonical, and outbound messages are plain records.
- The reserve balance read by redeem (`deps.querier.query_balance`) is a chain query; `Handle.Ledger.TryRedeem` takes it as the parameter `reserve`.
- `is_expired_at` and `check_viewing_key` are not shown. Each is a function-typed parameter: `ExpiryCheck`, held by the ledger as a constant, and `Query.KeyCheck`. Viewing-key hashing, key generation and the zero-key comparison run only to equalize timing; timing cannot be expressed here.
- The history writers (`store_transfer`, `store_mint`, `store_burn`, `store_deposit`, `store_redeem`) are modelled as appending one record to an abstract sequence. Their storage errors and the transaction ids they assign are not modelled. The history pagination (`get_transfers`, `get_txs`) is not modelled, so `Query.Answer` for a history query carries only the account, page number and page size.
- How the candidate addresses and the key are extracted from a query message (`get_validation_params`, in src/msg.rs) is not part of this model. `Query.Candidates` takes the account of a balance or history query, and the owner then the spender of an allowance query. A non-private query reaching the gate panics in the source; the model's query type has no such case.
- Storage read and write failures (`?` on storage and serialization calls) are not modelled: those writes always succeed here.
- Error message text is not modelled; each failure is a constructor of `Types.Error`.
- Minter management (`add_minters`, `remove_minters`, `set_minters`), `change_admin`, `set_contract_status` and the contract-status gating of handlers, `revoke_permit`, `try_set_key` and `try_create_key`, and `query_token_config`, `query_contract_status` and `query_minters` are single storage writes or reads with no ledger logic. The minter list is a field that only the constructor sets.
- Query.QueryExchangeRate: requires at most 44 decimals. With more, `10u128.pow` overflows u128, so the source panics or wraps depending on the build, and the model does not define a rate.
- The handle-message dispatcher and the padding of responses are outside the ledger logic.
