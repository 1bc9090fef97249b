/**
 * The pallet's value types: the kitty record, its 16-byte genome, the
 * u32 index type, the error enum and the events the entry points emit.
 */
module KittyTypes {
  import opened Wrappers

  /** `KittyIndex::max_value()` for `type KittyIndex = u32`. */
  const U32_MAX: nat := 0xFFFF_FFFF

  /** `type KittyIndex = u32`. */
  type KittyIndex = x: nat | x <= U32_MAX

  /** Accounts are compared only for equality; the test runtime uses integers. */
  type AccountId = nat

  /** The currency's balance type (an unsigned integer). */
  type Balance = nat

  type Byte = bv8

  const DNA_LEN: nat := 16

  /** `[u8; 16]`. */
  type Dna = s: seq<Byte> | |s| == DNA_LEN witness [0, 0, 0, 0, 0, 0, 0, 0, 0, 0, 0, 0, 0, 0, 0, 0]

  /** `struct Kitty { dna, owner, price }`; a price of None means "not on sale". */
  datatype Kitty = Kitty(dna: Dna, owner: AccountId, price: Option<Balance>)

  /** `enum Error<T>`, in declaration order. */
  datatype Error =
    | KittiesCountOverflow
    | NotOwner
    | InvalidKittyIndex
    | SameParentIndex
    | PushKittiesOwnedFailed
    | KittyNotExist
    | CanNotBuyTheKittyYouOwned
    | TheKittyIsNotOnSell
    | BidPriceIsTooLow
    | InsufficientBalance

  /**
   * What a dispatchable returns on failure: either an error of this pallet
   * or the refusal of the currency ledger's transfer.
   */
  datatype DispatchError = Module(error: Error) | LedgerRejected

  /** `enum Event<T>`. */
  datatype Event =
    | KittyCreate(who: AccountId, id: KittyIndex)
    | KittyTransfer(from: AccountId, to: AccountId, id: KittyIndex)
    | SellKitty(seller: AccountId, id: KittyIndex, price: Option<Balance>)
    | CancelSellKitty(seller: AccountId, id: KittyIndex)
    | BuyKitty(buyer: AccountId, seller: AccountId, id: KittyIndex, bid: Balance)
}
