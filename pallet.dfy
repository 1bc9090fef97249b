/**
 * The pallet as the runtime executes it: one object holding the three
 * storage items and the currency's balances, whose methods write them step
 * by step as the Rust code does. Each method is proved to leave exactly the
 * storage that the corresponding transition of Registry or Calls computes,
 * so every lemma proved there holds of the object. The methods run on any
 * storage, as the Rust code does; `Valid()` is the ownership invariant of
 * the value layer, which each method keeps, and a fact such as "an owner's
 * transfer on valid storage succeeds" follows from a method's `ensures`
 * together with the lemma about its transition (`Calls.TransferMovesKitty`).
 */
module KittiesPallet {
  import opened Wrappers
  import opened KittyTypes
  import opened OwnedList
  import opened Registry
  import Genome
  import Currency
  import Calls

  class Pallet {
    var kittiesCount: Option<KittyIndex>
    var kitties: map<KittyIndex, Kitty>
    var kittiesOwned: map<AccountId, seq<KittyIndex>>
    var balances: map<AccountId, Balance>

    /** The storage as a value. */
    function View(): State
      reads this
    {
      State(kittiesCount, kitties, kittiesOwned, balances)
    }

    ghost predicate Valid()
      reads this
    {
      Consistent(View())
    }

    /** The genesis `build`: mint every configured pair in order, discarding errors. */
    constructor Genesis(config: seq<(AccountId, Dna)>, initialBalances: map<AccountId, Balance>)
      ensures View() == Calls.Genesis(config, initialBalances)
      ensures Valid()
    {
      kittiesCount, kitties, kittiesOwned, balances := None, map[], map[], initialBalances;
      new;
      var i := 0;
      while i < |config|
        invariant 0 <= i <= |config|
        invariant View() == Calls.Genesis(config[..i], initialBalances)
      {
        assert config[..i + 1][..i] == config[..i];
        var (acct, dna) := config[i];
        var _ := Mint(acct, dna);
        i := i + 1;
      }
      assert config[..i] == config;
      Calls.GenesisConsistent(config, initialBalances);
    }

    /** `mint(acct, Some(dna))`. */
    method Mint(acct: AccountId, dna: Dna) returns (r: Result<KittyIndex, Error>)
      modifies this
      ensures Step(r, View()) == Registry.Mint(old(View()), acct, dna)
      ensures old(Valid()) ==> Valid()
    {
      ghost var before := View();
      var kittyId: KittyIndex;
      match kittiesCount {
        case Some(id) =>
          if id == U32_MAX {
            return Failure(KittiesCountOverflow);
          }
          kittyId := id;
        case None =>
          kittyId := 0;
      }
      var kitty := Kitty(dna, acct, None);
      kitties := kitties[kittyId := kitty];
      kittiesOwned := kittiesOwned[acct := View().OwnedBy(acct) + [kittyId]];
      kittiesCount := Some(kittyId + 1);
      r := Success(kittyId);
      if Consistent(before) {
        MintKeepsConsistent(before, acct, dna);
      }
    }

    /** `transfer_kitty_to(id, receiver)`. */
    method TransferKittyTo(kittyId: KittyIndex, receiver: AccountId) returns (r: Result<(), Error>)
      modifies this
      ensures Step(r, View()) == Relocate(old(View()), kittyId, receiver)
      ensures r.Failure? ==> View() == old(View())
      ensures old(Valid()) ==> Valid()
    {
      ghost var before := View();
      if kittyId !in kitties {
        return Failure(KittyNotExist);
      }
      var kitty := kitties[kittyId];
      var sender := kitty.owner;
      kitty := kitty.(owner := receiver);
      var ownedVec := View().OwnedBy(sender);
      var found := Position(ownedVec, kittyId);
      if found.None? {
        return Failure(NotOwner);
      }
      kittiesOwned := kittiesOwned[sender := SwapRemove(ownedVec, found.value)];
      kittiesOwned := kittiesOwned[receiver := View().OwnedBy(receiver) + [kittyId]];
      kitty := kitty.(price := None);
      kitties := kitties[kittyId := kitty];
      r := Success(());
      if Consistent(before) {
        RelocateKeepsConsistent(before, kittyId, receiver);
      }
    }

    /** `breed_kitty(owner, id1, id2)`, with the random selector passed in. */
    method BreedKitty(owner: AccountId, kittyId1: KittyIndex, kittyId2: KittyIndex, selector: Dna)
      returns (r: Result<KittyIndex, Error>)
      modifies this
      ensures Step(r, View()) == Registry.BreedKitty(old(View()), owner, kittyId1, kittyId2, selector)
      ensures old(Valid()) ==> Valid()
    {
      ghost var before := View();
      if kittyId1 == kittyId2 {
        return Failure(SameParentIndex);
      }
      if kittyId1 !in kitties {
        return Failure(InvalidKittyIndex);
      }
      var kitty1 := kitties[kittyId1];
      if kittyId2 !in kitties {
        return Failure(InvalidKittyIndex);
      }
      var kitty2 := kitties[kittyId2];
      if owner != kitty1.owner {
        return Failure(NotOwner);
      }
      if owner != kitty2.owner {
        return Failure(NotOwner);
      }
      var kittyId: KittyIndex;
      match kittiesCount {
        case Some(id) =>
          if id == U32_MAX {
            return Failure(KittiesCountOverflow);
          }
          kittyId := id;
        case None =>
          kittyId := 0;
      }
      var newDna := Genome.CrossDna(selector, kitty1.dna, kitty2.dna);
      kitties := kitties[kittyId := Kitty(newDna, owner, None)];
      kittiesOwned := kittiesOwned[owner := View().OwnedBy(owner) + [kittyId]];
      kittiesCount := Some(kittyId + 1);
      r := Success(kittyId);
      if Consistent(before) {
        BreedKittyKeepsConsistent(before, owner, kittyId1, kittyId2, selector);
      }
    }

    /** `set_price(acct, id, price)`. */
    method SetPrice(acct: AccountId, kittyId: KittyIndex, price: Option<Balance>) returns (r: Result<(), Error>)
      modifies this
      ensures Step(r, View()) == Registry.SetPrice(old(View()), acct, kittyId, price)
      ensures old(Valid()) ==> Valid()
    {
      ghost var before := View();
      if kittyId !in kitties {
        return Failure(KittyNotExist);
      }
      var kitty := kitties[kittyId];
      if acct != kitty.owner {
        return Failure(NotOwner);
      }
      kitty := kitty.(price := price);
      kitties := kitties[kittyId := kitty];
      r := Success(());
      if Consistent(before) {
        SetPriceKeepsConsistent(before, acct, kittyId, price);
      }
    }

    /** The dispatchable `create`, with the generated genome passed in. */
    method Create(who: AccountId, dna: Dna) returns (r: Result<Event, DispatchError>)
      modifies this
      ensures Step(r, View()) == Calls.Create(old(View()), who, dna)
      ensures old(Valid()) ==> Valid()
    {
      var minted := Mint(who, dna);
      match minted {
        case Failure(e) => return Failure(Module(e));
        case Success(id) => return Success(KittyCreate(who, id));
      }
    }

    /** The dispatchable `transfer`. */
    method Transfer(who: AccountId, newOwner: AccountId, kittyId: KittyIndex) returns (r: Result<Event, DispatchError>)
      modifies this
      ensures Step(r, View()) == Calls.Transfer(old(View()), who, newOwner, kittyId)
      ensures old(Valid()) ==> Valid()
    {
      if kittyId !in kitties {
        return Failure(Module(KittyNotExist));
      }
      if who != kitties[kittyId].owner {
        return Failure(Module(NotOwner));
      }
      var moved := TransferKittyTo(kittyId, newOwner);
      match moved {
        case Failure(e) => return Failure(Module(e));
        case Success(_) => return Success(KittyTransfer(who, newOwner, kittyId));
      }
    }

    /** The dispatchable `breed`, with the random selector passed in. */
    method Breed(who: AccountId, kittyId1: KittyIndex, kittyId2: KittyIndex, selector: Dna)
      returns (r: Result<Event, DispatchError>)
      modifies this
      ensures Step(r, View()) == Calls.Breed(old(View()), who, kittyId1, kittyId2, selector)
      ensures old(Valid()) ==> Valid()
    {
      var bred := BreedKitty(who, kittyId1, kittyId2, selector);
      match bred {
        case Failure(e) => return Failure(Module(e));
        case Success(id) => return Success(KittyCreate(who, id));
      }
    }

    /** The dispatchable `sell`. */
    method Sell(seller: AccountId, kittyId: KittyIndex, price: Option<Balance>) returns (r: Result<Event, DispatchError>)
      modifies this
      ensures Step(r, View()) == Calls.Sell(old(View()), seller, kittyId, price)
      ensures old(Valid()) ==> Valid()
    {
      var priced := SetPrice(seller, kittyId, price);
      match priced {
        case Failure(e) => return Failure(Module(e));
        case Success(_) => return Success(SellKitty(seller, kittyId, price));
      }
    }

    /** The dispatchable `CancelSell`. */
    method CancelSell(seller: AccountId, kittyId: KittyIndex) returns (r: Result<Event, DispatchError>)
      modifies this
      ensures Step(r, View()) == Calls.CancelSell(old(View()), seller, kittyId)
      ensures old(Valid()) ==> Valid()
    {
      var priced := SetPrice(seller, kittyId, None);
      match priced {
        case Failure(e) => return Failure(Module(e));
        case Success(_) => return Success(CancelSellKitty(seller, kittyId));
      }
    }

    /**
     * `T::Currency::transfer(from, to, amount, KeepAlive)`; the ledger's
     * verdict is passed in. A refused transfer writes nothing.
     */
    method CurrencyTransfer(from: AccountId, to: AccountId, amount: Balance, ledgerAccepts: bool) returns (ok: bool)
      requires Currency.FreeBalance(balances, from) >= amount
      modifies this`balances
      ensures ok == ledgerAccepts
      ensures balances == if ok then Currency.Transfer(old(balances), from, to, amount) else old(balances)
    {
      ok := ledgerAccepts;
      if ok {
        balances := Currency.Transfer(balances, from, to, amount);
      }
    }

    /** Discards every write since `saved` was taken: the rollback of `#[transactional]`. */
    method Rollback(saved: State)
      modifies this
      ensures View() == saved
    {
      kittiesCount, kitties, kittiesOwned, balances := saved.count, saved.kitties, saved.owned, saved.balances;
    }

    /**
     * The dispatchable `buy`, which is `#[transactional]`: the storage is
     * saved before the currency move, and restored if the move or the
     * relocation that follows it fails.
     */
    method Buy(buyer: AccountId, kittyId: KittyIndex, bidPrice: Balance, ledgerAccepts: bool)
      returns (r: Result<Event, DispatchError>)
      modifies this
      ensures Step(r, View()) == Calls.Buy(old(View()), buyer, kittyId, bidPrice, ledgerAccepts)
      ensures r.Failure? ==> View() == old(View())
      ensures old(Valid()) ==> Valid()
    {
      ghost var before := View();
      if kittyId !in kitties {
        return Failure(Module(KittyNotExist));
      }
      var kitty := kitties[kittyId];
      if buyer == kitty.owner {
        return Failure(Module(CanNotBuyTheKittyYouOwned));
      }
      match kitty.price {
        case Some(sellPrice) =>
          if bidPrice < sellPrice {
            return Failure(Module(BidPriceIsTooLow));
          }
        case None =>
          return Failure(Module(TheKittyIsNotOnSell));
      }
      if Currency.FreeBalance(balances, buyer) < bidPrice {
        return Failure(Module(InsufficientBalance));
      }
      var seller := kitty.owner;
      var saved := View();
      var paid := CurrencyTransfer(buyer, seller, bidPrice, ledgerAccepts);
      if !paid {
        Rollback(saved);
        return Failure(LedgerRejected);
      }
      var moved := TransferKittyTo(kittyId, buyer);
      if moved.Failure? {
        Rollback(saved);
        return Failure(Module(moved.error));
      }
      r := Success(BuyKitty(buyer, seller, kittyId, bidPrice));
      if Consistent(before) {
        Calls.BuyKeepsConsistent(before, buyer, kittyId, bidPrice, ledgerAccepts);
      }
    }
  }
}
