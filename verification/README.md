# NiFTyRent nft-rental in Dafny

A model of the NiFTyRent NFT-rental contracts for the NEAR blockchain and of the two
test-double contracts their integration tests deploy:

- **Rental contract** (`rental.dfy`, `lease.dfy`): a lender approves the contract for an NFT
  with a message describing a lease (`nft_on_approve` stores a Pending `LeaseCondition` under a
  random key); the borrower accepts and pays (`lending_accept` asks the NFT contract to
  transfer the token here); the NFT contract's callback activates the lease
  (`nft_on_transfer`); after expiry the lender or the service owner takes back the NFT and the
  rent (`claim_back`). Queries list leases by lender and by borrower and find the borrower of
  an NFT. The contract also serves a lease-ownership token (NEP-171 core: `nft_token`,
  `nft_transfer`, `nft_transfer_call`, `nft_resolve_transfer`), and holds the crate-internal
  `nft_mint`, which is not exported and which nothing in the contract calls.
- **Marketplace** (`marketplace.dfy`): listings of NFTs for lease, keyed by (NFT contract,
  token), indexed by owner and by NFT contract; the admin's allow-lists of NFT and FT
  contracts; the `nft_on_approve` callback that creates listings and the `ft_on_transfer`
  callback that checks rent payments.
- **FT test double** (`ft_stub.dfy`): a NEP-141 ledger with `ft_transfer`, `ft_transfer_call` and
  the refund step `ft_resolve_transfer`.
- **NFT-with-payout test double** (`payout_stub.dfy`): the NEP-199 royalty split (5% to the
  contract, the rest to the owner) and `nft_transfer_payout`.

`near.dfy` holds the NEAR vocabulary they share: account ids, `u32`/`u64`/`u128` as bounded
naturals, the call environment, promise results, `assert_one_yocto`, the deposit check
`#[near_bindgen]` adds to non-`#[payable]` methods, checked arithmetic, and `u128` parsing and
printing.

Conventions of the model:

- A call returns `Result<T>`: `Ok(value)` or `Panic(reason)`. A panic aborts the NEAR receipt,
  so every method that returns `Panic` leaves the contract state as it was.
- Cross-contract calls and NEAR transfers are returned as request values (`Request`,
  `FtRequest`); their execution is not modelled. Callbacks take the promise result as a
  `PromiseResult` parameter, and `env::*` values come in an `Env` parameter.
- JSON messages arrive already parsed: `Option<...>`, where `None` stands for a message that
  does not deserialize.
- Contract state is a Dafny `class` whose methods are proved against pure functions
  (`CheckClaimBack`, `ResolveTransfer`, `Transfer`, `IndexInsert`, ...), and the properties are
  lemmas about those functions. `UnorderedMap`'s iteration order is the field `leaseKeys`
  (insertion appends, removal is `swap_remove`), so the queries are specified in the order they
  return entries.

## Model

| member | source | states |
|---|---|---|
| `Near.AssertOneYocto` | contract/src/nft/core.rs:55 | succeeds exactly when one yoctoNEAR is attached, else panics with the one-yocto message |
| `Near.AssertNotPayable` | marketplace/src/nft_callbacks.rs:29-38 | a non-`#[payable]` method succeeds its deposit check exactly when nothing is attached; otherwise it panics with a message naming the method |
| `Near.ParseU128` | contract/src/lib.rs:314 | a parsed amount is the value of an optional '+' followed by a non-empty string of digits, within u128 |
| `Near.ParseToDecimal` | contract/src/lib.rs:314 | parsing the decimal text of any u128 gives that number back |
| `Near.ToDecimal` | contract/src/lib.rs:383 | `u128::to_string` prints a non-empty string of decimal digits |
| `Near.DigitsValueOfDecimal` | contract/src/lib.rs:314 | the digits printed for n denote n |
| `Lease.LeaseIdMsg` | contract/src/lib.rs:109 | the message of `lending_accept` is `{"lease_id":"`, the lease id itself, then `"}` |
| `Lease.LeaseIdMsgInjective` | contract/src/lib.rs:109 | distinct leases get distinct messages |
| `Lease.LeaseIdToLeaseTokenId` | integration-tests/tests/integration.rs:886 | the ownership-token id of a lease ends in "_lender" and maps back to the lease id |
| `Lease.LeaseTokenIdToLeaseId` | contract/src/nft/core.rs:103 | strips a trailing "_lender" (appending it gives the token id back); any other id is returned unchanged |
| `Lease.LeaseTokenIdInjective` | contract/src/nft/core.rs:103 | distinct leases get distinct ownership-token ids |
| `Lease.LeaseTokenMetadata` | contract/src/nft/core.rs:110-131 | the assembled metadata has a title, ending in the token id, and a description |
| `Lease.ShouldRevert` | contract/src/nft/core.rs:163-173 | a failed receiver call or an answer that is not a bool means revert; a bool answer is taken as is; a result not ready aborts |
| `Rental.LeaseFromApproval` | contract/src/lib.rs:300-316 | panics on an unparsable message, on a token id differing from the approved one and on a bad amount, in that order; otherwise a Pending lease with the owner and approval id of the call and every other field from the message |
| `Rental.InsertFreshLease` | contract/src/lib.rs:318-321 | storing under an unused key adds exactly one lease and keeps every existing one |
| `Rental.Activate` | contract/src/lib.rs:262-267 | activation sets the state to Active and changes no other field |
| `Rental.ActivateIdempotent` | contract/src/lib.rs:260-268 | activating a lease twice gives the same map as activating it once |
| `Rental.CheckClaimBack` | contract/src/lib.rs:139-157 | the claim-back guards in order: unknown lease, not yet expired, not Active, caller neither lender nor service owner; succeeds exactly when none applies |
| `Rental.ClaimBackOnce` | contract/src/lib.rs:176-177 | after a successful claim-back deleted the lease, claiming it again panics |
| `Rental.Select` | contract/src/lib.rs:113-133 | the filter of the two lease queries: never more entries than keys, and every entry is a stored lease of the account, as stored |
| `Rental.SelectExactly` | contract/src/lib.rs:113-133 | the query result holds exactly the stored leases whose lender (or borrower) is the account |
| `Rental.UpdateActiveLeaseLender` | contract/src/nft/core.rs:192 | moving a lease to a new lender changes only that lease's lender |
| `Rental.ResolveTransfer` | contract/src/nft/core.rs:161-206 | aborts exactly when the result is not ready; returns false exactly when a revert is asked and the lease found is still lent by the receiver, and then only moves the lender back; returning true changes nothing |
| `Rental.ResolveRestoresLender` | contract/src/nft/core.rs:180-205 | a revert after a transfer to the receiver restores the original lease map |
| `Rental.ResolveByTokenIdMissesLease` | contract/src/nft/core.rs:181-192 | looking the lease up under the token id finds nothing and keeps the transfer, while looking it up under the derived lease id rolls the lender back |
| `Rental.IndexOf` | contract/src/lib.rs:177 | the first position of the key in the iteration order |
| `Rental.SwapRemove` | contract/src/lib.rs:177 | `swap_remove` of the key vector: one element shorter, the last key moved into the removed position, every other position unchanged |
| `Rental.SwapRemoveContents` | contract/src/lib.rs:177 | removing a key from the iteration order removes exactly that key and keeps keys unique |
| `Rental.Contract.constructor` | contract/src/lib.rs:73-79 | a new contract has the given owner and no lease |
| `Rental.Contract.InsertLease` | contract/src/lib.rs:322 | the map gets the entry; a new key goes to the end of the iteration order |
| `Rental.Contract.RemoveLease` | contract/src/lib.rs:177 | the map loses exactly that key; the last key takes its place in the iteration order |
| `Rental.Contract.LendingAccept` | contract/src/lib.rs:82-111 | panics for an unknown lease, a caller who is not the borrower, or a deposit below the rent; otherwise requests exactly one `nft_transfer_call` of the leased NFT to this contract with 1 yocto and the lease id in the message, and changes no lease |
| `Rental.Contract.CollectLeases` | contract/src/lib.rs:113-122 | the loop returns the selected leases in iteration order |
| `Rental.Contract.LeasesByOwner` | contract/src/lib.rs:113-122 | returns exactly the stored leases lent by the account |
| `Rental.Contract.LeasesByBorrower` | contract/src/lib.rs:124-133 | returns exactly the stored leases borrowed by the account |
| `Rental.Contract.ClaimBack` | contract/src/lib.rs:135-178 | panics as `CheckClaimBack` says, changing nothing; otherwise requests the rent to the lender and the NFT back to the lender, removes exactly that lease, and the last key takes its place in the iteration order |
| `Rental.Contract.GetBorrower` | contract/src/lib.rs:185-194 | None exactly when no lease is of that NFT; otherwise the borrower of the first such lease in iteration order |
| `Rental.Contract.ProxyFuncCalls` | contract/src/lib.rs:196-216 | refuses exactly "nft_transfer" and "nft_approve"; otherwise forwards the call with the attached deposit |
| `Rental.Contract.NftOnTransfer` | contract/src/lib.rs:237-271 | panics unless the sender is this contract, the message parses and the lease exists; then only that lease's state becomes Active and the answer is false |
| `Rental.Contract.NftOnApprove` | contract/src/lib.rs:292-323 | panics as `LeaseFromApproval` says, changing nothing; otherwise stores the built lease under the key and changes nothing else; a new key goes to the end of the iteration order, an existing key keeps its place |
| `Rental.Contract.NftTransfer` | contract/src/nft/core.rs:44-63 | always panics: without exactly 1 yocto on the guard, otherwise in the unimplemented transfer |
| `Rental.Contract.NftTransferCall` | contract/src/nft/core.rs:65-99 | always panics, for the same two reasons |
| `Rental.Contract.NftToken` | contract/src/nft/core.rs:101-144 | None exactly when the derived lease id is not active; for an active lease the token keeps the asked id, is owned by the lease's lender and has a title and a description |
| `Rental.Contract.NftTokenOfActiveLease` | contract/src/nft/core.rs:102-139 | the token of an active lease, asked for by its derived id, exists and is owned by the lender |
| `Rental.Contract.NftResolveTransfer` | contract/src/nft/core.rs:151-206 | any attached deposit panics with the non-payable message and changes nothing; otherwise carries out `ResolveTransfer` with the lease looked up by the lease id derived from the token id |
| `Rental.Contract.NftResolveTransferAsWritten` | contract/src/nft/core.rs:151-206 | the same deposit check; otherwise carries out `ResolveTransfer` with the lease looked up by the token id |
| `Rental.Contract.ApplyResolve` | contract/src/nft/core.rs:181-205 | the new lease map and the answer are those `ResolveTransfer` gives |
| `Rental.Contract.NftMint` | contract/src/nft/mint.rs:5-24 | panics exactly when the token id exists; otherwise records the token (owner the receiver, no inline metadata) and its metadata, and changes no lease |
| `Marketplace.InsertAccounts` | marketplace/src/lib.rs:203-208 | the set afterwards holds exactly the old ids and the listed ones |
| `Marketplace.RemoveAccounts` | marketplace/src/lib.rs:210-215 | the set afterwards holds exactly the old ids not listed |
| `Marketplace.IndexInsert` | marketplace/src/lib.rs:157-178 | the id joins the account's set, which is created when absent; other accounts' sets are unchanged |
| `Marketplace.TreasuryGuards` | marketplace/src/lib.rs:86-88 | the guards succeed exactly when the deposit check allows the deposit, it is 1 yocto and the caller is the owner |
| `Marketplace.SetTreasuryAlwaysPanics` | marketplace/src/lib.rs:86-88 | as declared, without `#[payable]`, every call panics |
| `Marketplace.InsertKeepsIndexed` | marketplace/src/lib.rs:141-178 | storing a listing under its NFT and indexing it keeps every listing reachable from both indices |
| `Marketplace.Contract.constructor` | marketplace/src/lib.rs:70-82 | a new marketplace has the given accounts, no listing and empty allow-lists |
| `Marketplace.Contract.OneListingPerNft` | marketplace/src/lib.rs:18 | two listings of the same NFT are the same listing |
| `Marketplace.Contract.SetTreasury` | marketplace/src/lib.rs:86-90 | with the method payable: changes only the treasury, exactly when the guards pass |
| `Marketplace.Contract.AddAllowedNftContractIds` | marketplace/src/lib.rs:92-96 | owner only; adds exactly the listed NFT contracts |
| `Marketplace.Contract.RemoveAllowedNftContractIds` | marketplace/src/lib.rs:98-102 | owner only; removes exactly the listed NFT contracts |
| `Marketplace.Contract.AddAllowedFtContractIds` | marketplace/src/lib.rs:104-108 | owner only; adds exactly the listed FT contracts |
| `Marketplace.Contract.InternalInsertListing` | marketplace/src/lib.rs:130-196 | the listing under its NFT holds exactly the given fields, replacing any earlier one, and both index sets gain its id |
| `Marketplace.Contract.CheckApproval` | marketplace/src/nft_callbacks.rs:39-65 | the listing guards in order: deposit (the non-payable message naming `nft_on_approve`), call from the marketplace itself, owner not the signer, NFT contract not allowed, bad message, FT contract not allowed; succeeds exactly when none applies |
| `Marketplace.Contract.NftOnApprove` | marketplace/src/nft_callbacks.rs:29-81 | panics as `CheckApproval` says before any write; otherwise lists the NFT at (caller, token) with the call's owner and approval and the message's terms |
| `Marketplace.Contract.CheckPayment` | marketplace/src/ft_callbacks.rs:31-49 | the payment checks in order: bad message, no listing, wrong FT contract, amount not the price; succeeds exactly when none applies |
| `Marketplace.Contract.FtOnTransfer` | marketplace/src/ft_callbacks.rs:24-55 | always panics, with the failed check's reason or in the unimplemented remainder, and writes nothing |
| `FtStub.BalanceOf` | integration-tests/stubs/ft/src/lib.rs:136-138 | 0 for an unknown account, the stored balance otherwise |
| `FtStub.Withdraw` | integration-tests/stubs/ft/src/lib.rs:149-156 | succeeds exactly when the account is registered and holds the amount; lowers only that balance by the amount |
| `FtStub.Deposit` | integration-tests/stubs/ft/src/lib.rs:140-147 | succeeds exactly when the account is registered and the sum fits in u128; raises only that balance by the amount |
| `FtStub.Transfer` | integration-tests/stubs/ft/src/lib.rs:158-167 | registers no account and touches only the sender and the receiver |
| `FtStub.TransferMovesAmount` | integration-tests/stubs/ft/src/lib.rs:158-167 | between distinct accounts: succeeds exactly when both are registered, the sender holds the amount and the receiver does not overflow; moves the amount and conserves their sum |
| `FtStub.TransferToSelf` | integration-tests/stubs/ft/src/lib.rs:158-167 | a transfer to oneself succeeds when the balance covers it and changes nothing |
| `FtStub.UnusedAmount` | integration-tests/stubs/ft/src/lib.rs:180-191 | the unused amount is min(amount, answer) for a parsed answer and the whole amount otherwise; never more than the amount |
| `FtStub.ResolveTransfer` | integration-tests/stubs/ft/src/lib.rs:172-208 | aborts exactly when the result is not ready; its only other panic is the overflow of the sender's credit; never reports more than the amount as used |
| `FtStub.ResolveRefunds` | integration-tests/stubs/ft/src/lib.rs:193-204 | with something unused, a funded receiver and a registered sender, min(receiver balance, unused) moves back to the sender, amount minus that is reported, and the pair's sum is conserved |
| `FtStub.ResolveWithoutRefund` | integration-tests/stubs/ft/src/lib.rs:193-207 | with nothing unused or an empty receiver, the whole amount is reported and the ledger is unchanged |
| `FtStub.ResolveToSelf` | integration-tests/stubs/ft/src/lib.rs:193-204 | when sender and receiver are the same funded account, the refund is taken and given back, the ledger is unchanged and amount minus the refund is reported |
| `FtStub.ResolveUnregisteredSenderBurns` | integration-tests/stubs/ft/src/lib.rs:194-207 | with an unregistered sender the receiver is still debited, nobody is credited, and the whole amount is reported |
| `FtStub.FailedCallIsRefunded` | integration-tests/stubs/ft/src/lib.rs:110-129 | when this ledger's own resolver runs after its transfer and the receiver hook failed, the transfer is undone in full and 0 is reported used |
| `FtStub.Contract.FtBalanceOf` | integration-tests/stubs/ft/src/lib.rs:136-138 | 0 for an unknown account, the stored balance otherwise |
| `FtStub.Contract.InternalWithdraw` | integration-tests/stubs/ft/src/lib.rs:149-156 | the ledger becomes what `Withdraw` gives, or stays when it panics |
| `FtStub.Contract.InternalDeposit` | integration-tests/stubs/ft/src/lib.rs:140-147 | the ledger becomes what `Deposit` gives, or stays when it panics |
| `FtStub.Contract.InternalTransfer` | integration-tests/stubs/ft/src/lib.rs:158-167 | the ledger becomes what `Transfer` gives; a failed deposit also undoes the withdrawal |
| `FtStub.Contract.FtTransfer` | integration-tests/stubs/ft/src/lib.rs:90-100 | panics without exactly 1 yocto; otherwise transfers from the caller as `Transfer` says |
| `FtStub.Contract.FtTransferCall` | integration-tests/stubs/ft/src/lib.rs:102-130 | the same guard and transfer, then requests `ft_on_transfer` at the configured contract and `ft_resolve_transfer` at the receiver |
| `FtStub.Contract.FtResolveTransfer` | integration-tests/stubs/ft/src/lib.rs:171-208 | any attached deposit panics with the non-payable message and changes nothing; otherwise the answer and the new ledger are those `ResolveTransfer` gives |
| `PayoutStub.NftPayout` | integration-tests/stubs/nft_with_payout/src/lib.rs:69-84 | panics exactly for an unknown token; otherwise pays the contract and the owner, the owner getting balance minus balance/20 |
| `PayoutStub.PayoutSplitsBalance` | integration-tests/stubs/nft_with_payout/src/lib.rs:75-83 | when the owner is not the contract, the contract gets balance/20, no more than the owner, and the shares sum to balance |
| `PayoutStub.PayoutToContractItself` | integration-tests/stubs/nft_with_payout/src/lib.rs:78-83 | when the contract owns the token the payout has one entry, the owner's share |
| `PayoutStub.PayoutOfTenThousand` | integration-tests/stubs/nft_with_payout/src/lib.rs:75-76 | a price of 10000 splits into 500 and 9500 |
| `PayoutStub.Contract.constructor` | integration-tests/stubs/nft_with_payout/src/lib.rs:43-56 | a new contract owns no token |
| `PayoutStub.Contract.NftTransferPayout` | integration-tests/stubs/nft_with_payout/src/lib.rs:86-98 | returns the payout computed from the owner before the transfer, then gives the token to the receiver |

## Left out

- Execution of promises (`ext_nft`, `Promise::new(..).transfer`, `function_call`, the `ext_*`
  calls of the FT stub), gas amounts, log lines and NEP-297 events: requests are returned as
  values and callbacks receive the result as a parameter.
- `env::random_seed` and its bs58 encoding (contract/src/lib.rs:318-321): the new lease key is
  a parameter of `Rental.Contract.NftOnApprove`; `Rental.InsertFreshLease` states what an unused
  key gives. The code overwrites an existing key, and so does the model.
- JSON (de)serialization: messages arrive parsed, `None` meaning one that does not parse.
  `Marketplace.LeaseAcceptanceJson.nftTokenId` is a plain token id, whereas
  marketplace/src/ft_callbacks.rs:9 declares it an `AccountId`: a message whose token id is not
  a valid account id is `None` there (panic "Invalid lease listing") but parsed here, and
  `ft_on_transfer` then panics at a later check or at its `todo!()` instead.
- Panic texts: the model carries the custom message of each `assert!`, `assert_eq!`,
  `assert_ne!` and `expect`, and the deposit check's `Method <name> doesn't accept deposit`
  with the method's name; the prefixes Rust adds (`assertion failed: ...`, the serde error
  after an `expect`) are not reproduced.
- `approved_account_ids`, and every `TokenMetadata` field but `title` and `description`:
  `Lease.TokenMetadata` keeps only those two, so `Rental.Contract.NftMint` stores only them of
  the metadata its caller passes (`media`, `copies`, dates and the rest are dropped).
- `lease_token_id_to_lease_id`, `internal_update_active_lease_lender` and
  `internal_delete_market_data` are not defined in the files modelled here. The first is modelled as
  stripping the "_lender" suffix the integration tests expect of ownership-token ids
  (integration-tests/tests/integration.rs:886), the second as setting the lease's lender, the
  third as doing nothing.
- `assert_owner` of the marketplace is not defined in the files modelled here; it is modelled as
  "the caller is `owner_id`", with the message `Owner must be predecessor`.
- marketplace/src/lib.rs does not compile as written: lines 95-107 name
  `approved_*_contract_ids` where the fields are `allowed_*_contract_ids`, and lines 143-145
  join the map key and the listing with `&` instead of a comma. The model follows the evident
  intent (the allowed sets; `insert(key, listing)`).
- The marketplace view functions, `internal_remove_listing` (marketplace/src/lib.rs:110-126,
  198-200) and `total_active_leases`, `internal_transfer` of the rental contract's token
  (contract/src/nft/internal.rs) are `todo!()`: views are not modelled, and
  `internal_transfer` is the panic `Rental.Contract.NftTransfer` and
  `Rental.Contract.NftTransferCall` end in.
- `Contract::new`'s "Already initialized" check (no state to check in the model) and
  `PanicOnDefault`.
- `Rental.Contract.constructor`, `Marketplace.Contract.constructor`,
  `PayoutStub.Contract.constructor`: the deposit check `#[near_bindgen]` puts on a
  non-`#[payable]` `#[init]` method is not modelled; a constructor takes no `Env`.
- The rental contract's `active_lease_ids`, `tokens_by_id` and `token_metadata_by_id` are fields
  of the one `Rental.Contract`, as contract/src/nft/core.rs and mint.rs use them; the struct in
  contract/src/lib.rs does not declare them and nothing in the core adds to
  `active_lease_ids`, so the model does not relate it to the lease states.
- `nft_on_transfer` does not check that the lease is Pending, `claim_back` does not touch
  `active_lease_ids`, and the rental contract has no payout resolution; the model does the same.
- The FT stub's `ft_transfer`, `ft_transfer_call`, `ft_total_supply` and `ft_balance_of` are not
  `pub`, so `#[near_bindgen]` would not export them, and the stub has no initialiser; the model
  treats them as callable. `ft_total_supply` and `ft_metadata` only return stored values and
  are not modelled; no modelled method changes `total_supply`.
- `FtStub.FailedCallIsRefunded`: `ft_transfer_call` sends `ft_on_transfer` to the configured
  `contract_addr` (integration-tests/stubs/ft/src/lib.rs:119) and `ft_resolve_transfer` to
  `receiver_id` (lib.rs:125), not to the ledger itself, so this ledger's resolver follows its
  own transfer only when the receiver is the ledger. In the integration flow the receiver is
  the rental contract, which has no `ft_resolve_transfer`, and no refund happens. The lemma
  states the refund for a run of this ledger's resolver; `FtStub.Contract.FtTransferCall`
  records the routing.
- `FtStub.ResolveTransfer`: the addition at integration-tests/stubs/ft/src/lib.rs:202 is
  unchecked; the model panics on overflow, as a build with overflow checks does.
- `PayoutStub.Contract.NftTransferPayout`: the `nft_transfer` it calls comes from the
  near-contract-standards library (one yocto, approval, owner checks, events); the model keeps
  only the change of owner. `nft_mint`, `Contract::new`'s storage layout and the other library
  methods of that stub are not modelled.
- The frontends and scripts (UI, wallet plumbing, floating-point formatting) and the test
  harnesses, which are read only as evidence of intended behaviour.

## Findings

| source | as written | input that shows it | evidently intended | confidence | as-written member | corrected member |
|---|---|---|---|---|---|---|
| contract/src/nft/core.rs:181 | `nft_resolve_transfer` looks the lease up in `lease_map` under the token id, though `lease_map` is keyed by lease ids and the token id is the lease id plus "_lender" | lease "L" lent by the receiver, token "L_lender", receiver's `nft_on_transfer` failed: no lease is found, the transfer is kept and the lender is not rolled back | look the lease up under `lease_token_id_to_lease_id(token_id)`, as `nft_token` does | medium (the id helper is not defined in the files modelled here), not executed | `Rental.ResolveByTokenIdMissesLease` | `Rental.Contract.NftResolveTransfer` |
| marketplace/src/lib.rs:86-88 | `set_treasury` is not `#[payable]`, so any attached deposit is refused before the body, and the body requires exactly one yoctoNEAR | any call: 0 yocto fails `assert_one_yocto`, 1 yocto fails the non-payable check | mark `set_treasury` `#[payable]`, like the other admin methods | high, not executed | `Marketplace.SetTreasuryAlwaysPanics` | `Marketplace.Contract.SetTreasury` |
