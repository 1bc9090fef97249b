# Kitties pallet — a verified Dafny model

This project models the state-transition core of the `kitties` pallet of a
Substrate node template (`pallets/kitties/src/lib.rs`): minting collectible
"kitties" with a 16-byte genome, the ownership registry with its reverse
index, breeding, and listing/buying against a currency ledger.

The pallet's storage is three items:

- `KittiesCount`: an optional `u32` counter. Unset reads as 0.
- `Kitties`: id → optional `Kitty { dna, owner, price }`.
- `KittiesOwned`: account → `Vec<KittyIndex>`, the reverse index.

The currency pallet's free balances sit beside them.

The model has two layers:

- **Values** (`Registry`, `Calls`): the storage is a datatype `Registry.State`. Every internal
  function (`mint`, `transfer_kitty_to`, `breed_kitty`, `set_price`), every dispatchable call
  (`create`, `transfer`, `breed`, `sell`, `CancelSell`, `buy`) is a function from a state to
  a `Step` (the result and the state after it). The genesis `build` is a function from the
  configuration and the initial balances to a `State`. The ownership invariant
  `Registry.Consistent` and the properties of each operation are proved as lemmas about
  these functions.
- **Object** (`KittiesPallet.Pallet`): a class whose fields are the three storage items and
  the balances. Its methods write the fields step by step, as the Rust code does:
  `insert`, `mutate` with `push`, a `position` search followed by `swap_remove`, `put`, the
  16-iteration genome loop, and the genesis loop. Each method that models a pallet function
  is proved to leave exactly the `Step` (for genesis, the `State`) the value layer computes,
  and to keep `Valid()`. `buy` is built from two further methods: `CurrencyTransfer`, the
  ledger call, and `Rollback`, which restores the saved storage when a later step fails,
  modelling `#[transactional]`.

Supporting modules:

- `OwnedList`: the two `Vec` operations, `position` and `swap_remove`.
- `Genome`: the breeding rule.
- `Currency`: the balance stand-in.
- `KittyTypes`: the record, the error enum, the events and the `u32` index type.

The external inputs are parameters:

- The 16 bytes `random_value` would produce are passed in. `create` takes them as the genome,
  `breed` as the selector.
- The currency ledger's verdict on a `KeepAlive` transfer is a boolean `ledgerAccepts`.

Behaviours of the code the model keeps as written:

- `sell` and `CancelSell` check that the kitty exists (`KittyNotExist`) before they check
  ownership (`NotOwner`).
- Relocation appends the id to the receiver's list *after* removing it from the sender's.
  So a self-transfer succeeds, moves the id to the end of a reordered list and clears the
  price.
- The test file `pallets/kitties/src/tests.rs` calls functions that do not exist in the
  pallet. Its expected balances of 14 and 6 contradict the test runtime's genesis balances
  of 100 and 100. It is not used as a reference. The scenario lemma `Calls.Scenario` uses
  the runtime's genesis (`pallets/kitties/src/mock.rs`) instead.

## Model

| member | source | states |
|---|---|---|
| Genome.Mix | pallets/kitties/src/lib.rs:280 | Definition of the byte rule `(sel & a) OR (sel & b)`; its contract states it equals the selector masking `a OR b` |
| Genome.Crossover | pallets/kitties/src/lib.rs:279-281 | Definition of the child genome, the byte rule at each of the 16 positions; its contract states each byte is the selector masking the parents' OR (see also the Crossover lemmas) |
| Genome.CrossDna | pallets/kitties/src/lib.rs:273-281 | The loop over a zeroed 16-byte buffer yields, at every position i, `(sel[i] & dna1[i])` OR `(sel[i] & dna2[i])`, i.e. the genome `Crossover` |
| Genome.CrossoverWithinSelector | pallets/kitties/src/lib.rs:280 | No child bit is set where the selector bit is 0 (child AND NOT sel is 0) |
| Genome.CrossoverAllOnes | pallets/kitties/src/lib.rs:280 | An all-ones selector gives the bytewise OR of the parents |
| Genome.CrossoverAllZeros | pallets/kitties/src/lib.rs:280 | An all-zero selector gives an all-zero genome whatever the parents |
| Genome.CrossoverSymmetric | pallets/kitties/src/lib.rs:280 | Swapping the parents gives the same child |
| OwnedList.IndexOf | pallets/kitties/src/lib.rs:238 | For an id in the list: a position holding it with no earlier occurrence (the first match) |
| OwnedList.Position | pallets/kitties/src/lib.rs:238 | The linear search returns None exactly when the id is absent, otherwise the first position holding it |
| OwnedList.SwapRemove | pallets/kitties/src/lib.rs:239 | The list gets one shorter; every position other than the removed one keeps its element; the last element moves into the gap |
| OwnedList.SwapRemoveMultiset | pallets/kitties/src/lib.rs:239 | `swap_remove` removes exactly one occurrence of the removed element and keeps every other element |
| Currency.FreeBalance | pallets/kitties/src/lib.rs:172 | Definition of `free_balance` on the balance map; an account with no entry has free balance 0 |
| Currency.Transfer | pallets/kitties/src/lib.rs:175 | An accepted transfer debits `amount` from the sender and credits it to the receiver; every other account keeps its balance |
| Registry.ConsistentIndex | pallets/kitties/src/lib.rs:216-220 | Under the invariant, an id is in an account's list if and only if it exists and that account is its owner, and then it is listed exactly once |
| Registry.ConsistentWithBalances | pallets/kitties/src/lib.rs:172-175 | The ownership invariant is independent of the currency balances |
| Registry.EmptyConsistent | pallets/kitties/src/lib.rs:55-65 | Empty storage (counter unset, no records, no lists) satisfies the ownership invariant |
| Registry.NextId | pallets/kitties/src/lib.rs:196-204 | Id allocation fails with `KittiesCountOverflow` exactly when the counter is `u32::MAX`; otherwise the id is the counter (0 when unset), so the largest id is `u32::MAX - 1` |
| Registry.AddKitty | pallets/kitties/src/lib.rs:216-222 | The three closing writes shared by `mint` and `breed_kitty` (lines 289-293): the record is stored at the id, the id is appended to its owner's list, no other record and no other list changes, the counter becomes id + 1, balances untouched |
| Registry.Mint | pallets/kitties/src/lib.rs:195-225 | Fails exactly at counter `u32::MAX` with nothing written; otherwise the id is the prior count, the counter goes up by 1, `{dna, acct, None}` is stored at the id, the id is appended to `acct`'s list, and other lists and balances are unchanged |
| Registry.MintIsFresh | pallets/kitties/src/lib.rs:196-216 | Under the invariant a newly allocated id does not already exist, so no record is overwritten |
| Registry.AddKittyKeepsConsistent | pallets/kitties/src/lib.rs:216-222 | Inserting a record at the counter's id, appending it to its owner's list and bumping the counter keeps the invariant |
| Registry.MintKeepsConsistent | pallets/kitties/src/lib.rs:195-225 | `mint` keeps the ownership invariant |
| Registry.Relocate | pallets/kitties/src/lib.rs:227-253 | Fails with `KittyNotExist` when the record is absent and with `NotOwner` when the id is missing from its owner's list, in both cases with storage unchanged; succeeds exactly otherwise |
| Registry.RelocateEffects | pallets/kitties/src/lib.rs:232-251 | On success: record gets owner = receiver and price None, genome kept; sender's list is its `swap_remove` at the id's first position; receiver's list gets the id appended (after the removal, for a self-transfer); other records, lists, counter and balances unchanged |
| Registry.RelocateOccurrences | pallets/kitties/src/lib.rs:237-247 | A relocation moves one occurrence of the id from the sender's list to the receiver's list and changes no other multiplicity |
| Registry.RelocateKeepsConsistent | pallets/kitties/src/lib.rs:227-253 | `transfer_kitty_to` keeps the ownership invariant, including self-transfer |
| Registry.BreedCheck | pallets/kitties/src/lib.rs:256-261 | The checks of `breed_kitty` in source order; `SameParentIndex` exactly when the ids are equal, and no error exactly when the ids differ, both parents exist and the caller owns both |
| Registry.BreedKitty | pallets/kitties/src/lib.rs:255-294 | Checks in order `SameParentIndex`, `InvalidKittyIndex` (either parent), `NotOwner` (either parent), `KittiesCountOverflow`, each failure leaving storage unchanged; on success the child `{Crossover(sel, dna1, dna2), caller, None}` is stored at the prior count, appended to the caller's list, and the counter goes up by 1 |
| Registry.BreedKittyKeepsConsistent | pallets/kitties/src/lib.rs:289-293 | `breed_kitty` keeps the ownership invariant |
| Registry.SetPrice | pallets/kitties/src/lib.rs:297-303 | Fails with `KittyNotExist`, then `NotOwner`, with storage unchanged; otherwise only that record's price changes |
| Registry.SetPriceKeepsConsistent | pallets/kitties/src/lib.rs:297-303 | `set_price` keeps the ownership invariant |
| Calls.Create | pallets/kitties/src/lib.rs:105-113 | `create` fails exactly at counter `u32::MAX` with nothing written; otherwise emits `KittyCreate(who, prior count)` and leaves the storage `mint` leaves |
| Calls.CreateAppendsOne | pallets/kitties/src/lib.rs:108 | A successful `create` increases the counter by exactly 1 and appends exactly one id (the prior count) to the end of the caller's list, the rest of the list unchanged |
| Calls.Transfer | pallets/kitties/src/lib.rs:116-126 | Fails with `KittyNotExist`, then `NotOwner` (caller is not the owner), storage unchanged; otherwise the result and storage of relocating the kitty to the new owner, with event `KittyTransfer` |
| Calls.TransferMovesKitty | pallets/kitties/src/lib.rs:116-126 | On consistent storage an owner's transfer succeeds; the id is then in the receiver's list, out of the sender's (when they differ), and the record has the receiver as owner and no price |
| Calls.Breed | pallets/kitties/src/lib.rs:129-137 | `breed` leaves the storage `breed_kitty` leaves and reports its error, or `KittyCreate(who, prior count)` |
| Calls.BreedSameParentFails | pallets/kitties/src/lib.rs:256 | Breeding a kitty with itself always fails with `SameParentIndex` and changes nothing |
| Calls.Sell | pallets/kitties/src/lib.rs:140-146 | `sell` fails with `KittyNotExist`, then `NotOwner`, with storage unchanged; otherwise only that record's price becomes the given one (owner and genome kept) and `SellKitty` is emitted |
| Calls.CancelSell | pallets/kitties/src/lib.rs:149-156 | `CancelSell` fails with `KittyNotExist`, then `NotOwner`, with storage unchanged; otherwise only that record's price becomes None and `CancelSellKitty` is emitted |
| Calls.SellThenCancel | pallets/kitties/src/lib.rs:140-156 | Listing a kitty that is not on sale and then cancelling returns the storage to what it was |
| Calls.BuyCheck | pallets/kitties/src/lib.rs:162-172 | The checks of `buy` before any money moves, in source order: `KittyNotExist` exactly when the record is absent, then `CanNotBuyTheKittyYouOwned` when the buyer owns it, then `TheKittyIsNotOnSell` when no price is set or `BidPriceIsTooLow` when the bid is below it, then `InsufficientBalance` when the buyer's free balance is below the bid; no error exactly when every check passes |
| Calls.Buy | pallets/kitties/src/lib.rs:158-181 | Errors in order `KittyNotExist`, `CanNotBuyTheKittyYouOwned`, `TheKittyIsNotOnSell` / `BidPriceIsTooLow`, `InsufficientBalance`, then a ledger refusal or a relocation failure; every failure leaves storage and balances as they were; success exactly when all pass and the kitty is listed for its owner, emitting `BuyKitty(buyer, seller, id, bid)` |
| Calls.BuyMovesBid | pallets/kitties/src/lib.rs:172-176 | A successful `buy` moves exactly the bid (not the asking price) from buyer to seller, other balances unchanged, and relocates exactly that one kitty to the buyer, off sale |
| Calls.BuyKeepsConsistent | pallets/kitties/src/lib.rs:158-181 | `buy` keeps the ownership invariant |
| Calls.CallsKeepConsistent | pallets/kitties/src/lib.rs:102-183 | Every dispatchable keeps the ownership invariant, whether it succeeds or fails |
| Calls.Genesis | pallets/kitties/src/lib.rs:93-100 | Definition of the genesis `build` as `mint` applied to each pair in order; its contract states the counter ends at the number of pairs, capped at `u32::MAX` once further mints overflow and are discarded, and the balances are untouched (contents in `Calls.GenesisContents`) |
| Calls.GenesisConsistent | pallets/kitties/src/lib.rs:93-100 | The genesis build yields storage satisfying the ownership invariant |
| Calls.GenesisContents | pallets/kitties/src/lib.rs:93-100 | With at most `u32::MAX` pairs, genesis stores kitty i as the i-th pair with no price, sets the counter to the number of pairs, gives each account the ids of its pairs in order, and keeps the balances |
| Calls.ScenarioGenesis | pallets/kitties/src/mock.rs:111-122 | The test runtime's genesis gives kitty 0 to account 1 and kitty 1 to account 2, counter 2 |
| Calls.ScenarioCreate | pallets/kitties/src/lib.rs:105-113 | From that genesis, account 1's `create` yields kitty 2, counter 3, account 1 owning [0, 2] |
| Calls.ScenarioBuy | pallets/kitties/src/lib.rs:158-181 | Account 2 buying kitty 0 listed at 5 with bid 6 moves 6 (balances 106/94), leaves lists [2] and [1, 0] and the kitty with owner 2 and no price |
| Calls.Scenario | pallets/kitties/src/mock.rs:111-122 | Whole scenario from genesis: create, list at 5, cancel (price back to None), relist, buy at 6 by account 2 |
| KittiesPallet.Pallet.Genesis | pallets/kitties/src/lib.rs:93-100 | The genesis loop leaves the storage `Calls.Genesis` describes, which satisfies the invariant |
| KittiesPallet.Pallet.Mint | pallets/kitties/src/lib.rs:195-225 | Leaves exactly the result and storage of `Registry.Mint` and keeps the invariant |
| KittiesPallet.Pallet.TransferKittyTo | pallets/kitties/src/lib.rs:227-253 | Leaves exactly the result and storage of `Registry.Relocate`, writes nothing on failure, keeps the invariant |
| KittiesPallet.Pallet.BreedKitty | pallets/kitties/src/lib.rs:255-295 | Leaves exactly the result and storage of `Registry.BreedKitty`, the genome built by the byte loop, and keeps the invariant |
| KittiesPallet.Pallet.SetPrice | pallets/kitties/src/lib.rs:297-303 | Leaves exactly the result and storage of `Registry.SetPrice` and keeps the invariant |
| KittiesPallet.Pallet.Create | pallets/kitties/src/lib.rs:105-113 | Leaves exactly the result and storage of `Calls.Create` |
| KittiesPallet.Pallet.Transfer | pallets/kitties/src/lib.rs:116-126 | Leaves exactly the result and storage of `Calls.Transfer` |
| KittiesPallet.Pallet.Breed | pallets/kitties/src/lib.rs:129-137 | Leaves exactly the result and storage of `Calls.Breed` |
| KittiesPallet.Pallet.Sell | pallets/kitties/src/lib.rs:140-146 | Leaves exactly the result and storage of `Calls.Sell` |
| KittiesPallet.Pallet.CancelSell | pallets/kitties/src/lib.rs:149-156 | Leaves exactly the result and storage of `Calls.CancelSell` |
| KittiesPallet.Pallet.CurrencyTransfer | pallets/kitties/src/lib.rs:175 | The ledger transfer succeeds exactly when the ledger accepts it, and then moves the amount; a refusal writes nothing |
| KittiesPallet.Pallet.Rollback | pallets/kitties/src/lib.rs:158 | Restores the saved storage, discarding every write since it was saved |
| KittiesPallet.Pallet.Buy | pallets/kitties/src/lib.rs:158-181 | Leaves exactly the result and storage of `Calls.Buy`; on any failure, including one after the currency move, storage and balances are as before |

## Left out

- `random_value`, the blake2-128 hash of the host's randomness seed, the caller and the extrinsic index: its 16 bytes are a parameter (the genome of `create`, the selector of `breed`).
- `T::Currency` and its `KeepAlive` existential-deposit rule (in `pallet_balances`, not part of this model): balances are a map and the ledger's accept/refuse verdict is a parameter; only the rollback obligation around it is verified.
- Balance width: balances are unbounded naturals; an overflow in the ledger is covered only as a refusal the ledger may return.
- `ensure_signed`, weights, event deposit, SCALE encoding and storage hashers: callers are plain account values and events are returned as values.
- Raw storage layout: the model keeps logical values (an absent key reads as None or as the empty list); whether `mutate` writes back an unchanged empty list is not modelled.
- `PushKittiesOwnedFailed` is declared but never raised by the pallet; it appears only in the error type.
- Calls.GenesisContents: stated only for genesis lists of at most `u32::MAX` pairs; beyond that every further mint fails and is discarded, and only the capped counter (in `Calls.Genesis`'s contract) is stated for that case.
