/**
 * The pallet's dispatchable calls and its genesis build, as transitions
 * over the storage value: each either fails with storage exactly as it
 * was, or succeeds with an event and the new storage.
 */
module Calls {
  import opened Wrappers
  import opened KittyTypes
  import opened OwnedList
  import opened Registry
  import Currency

  /** `create(who)`: mint with the generated genome, passed in here. */
  function Create(s: State, who: AccountId, dna: Dna): (r: Step<Event, DispatchError>)
    ensures r.result.Failure? <==> s.count == Some(U32_MAX)
    ensures r.result.Failure? ==> r.result.error == Module(KittiesCountOverflow) && r.post == s
    ensures r.result.Success? ==> r.result.value == KittyCreate(who, s.Count()) && r.post == Mint(s, who, dna).post
  {
    var m := Mint(s, who, dna);
    match m.result
    case Failure(e) => Step(Failure(Module(e)), s)
    case Success(id) => Step(Success(KittyCreate(who, id)), m.post)
  }

  /** A successful `create`: one more kitty, one more id at the end of the caller's list. */
  lemma CreateAppendsOne(s: State, who: AccountId, dna: Dna)
    requires Create(s, who, dna).result.Success?
    ensures
      var t := Create(s, who, dna).post;
      && t.Count() == s.Count() + 1
      && |t.OwnedBy(who)| == |s.OwnedBy(who)| + 1
      && t.OwnedBy(who)[..|s.OwnedBy(who)|] == s.OwnedBy(who)
      && t.OwnedBy(who)[|s.OwnedBy(who)|] == s.Count()
      && t.kitties[s.Count()] == Kitty(dna, who, None)
  {
    var t := Create(s, who, dna).post;
    assert t.OwnedBy(who) == s.OwnedBy(who) + [s.Count()];
  }

  /** `transfer(who, new_owner, id)`: the caller must own the kitty; then relocate it. */
  function Transfer(s: State, who: AccountId, newOwner: AccountId, id: KittyIndex): (r: Step<Event, DispatchError>)
    ensures id !in s.kitties ==> r == Step(Failure(Module(KittyNotExist)), s)
    ensures id in s.kitties && s.kitties[id].owner != who ==> r == Step(Failure(Module(NotOwner)), s)
    ensures id in s.kitties && s.kitties[id].owner == who ==>
      r.result == (if Relocate(s, id, newOwner).result.Success? then Success(KittyTransfer(who, newOwner, id)) else Failure(Module(NotOwner)))
      && r.post == Relocate(s, id, newOwner).post
  {
    if id !in s.kitties then Step(Failure(Module(KittyNotExist)), s)
    else if s.kitties[id].owner != who then Step(Failure(Module(NotOwner)), s)
    else
      var m := Relocate(s, id, newOwner);
      match m.result
      case Failure(e) => Step(Failure(Module(e)), s)
      case Success(_) => Step(Success(KittyTransfer(who, newOwner, id)), m.post)
  }

  /**
   * A transfer by the owner on consistent storage succeeds: the kitty
   * leaves the sender's list, is in the receiver's list, and has the
   * receiver as owner and no price.
   */
  lemma TransferMovesKitty(s: State, who: AccountId, newOwner: AccountId, id: KittyIndex)
    requires Consistent(s) && id in s.kitties && s.kitties[id].owner == who
    ensures Transfer(s, who, newOwner, id).result == Success(KittyTransfer(who, newOwner, id))
    ensures
      var t := Transfer(s, who, newOwner, id).post;
      && id in t.OwnedBy(newOwner)
      && (who != newOwner ==> id !in t.OwnedBy(who))
      && t.kitties[id] == Kitty(s.kitties[id].dna, newOwner, None)
  {
    ConsistentIndex(s, who, id);
    RelocateKeepsConsistent(s, id, newOwner);
    var t := Relocate(s, id, newOwner).post;
    RelocateEffects(s, id, newOwner);
    ConsistentIndex(t, newOwner, id);
    ConsistentIndex(t, who, id);
  }

  /** `breed(who, id1, id2)`, with the random selector passed in. */
  function Breed(s: State, who: AccountId, id1: KittyIndex, id2: KittyIndex, selector: Dna): (r: Step<Event, DispatchError>)
    ensures
      var m := BreedKitty(s, who, id1, id2, selector);
      && r.post == m.post
      && (m.result.Failure? ==> r.result == Failure(Module(m.result.error)))
      && (m.result.Success? ==> r.result == Success(KittyCreate(who, s.Count())))
  {
    var m := BreedKitty(s, who, id1, id2, selector);
    match m.result
    case Failure(e) => Step(Failure(Module(e)), s)
    case Success(id) => Step(Success(KittyCreate(who, id)), m.post)
  }

  /** Breeding a kitty with itself always fails and changes nothing. */
  lemma BreedSameParentFails(s: State, who: AccountId, id: KittyIndex, selector: Dna)
    ensures Breed(s, who, id, id, selector) == Step(Failure(Module(SameParentIndex)), s)
  {
  }

  /** `sell(who, id, price)`: the owner sets (or, with None, clears) the asking price. */
  function Sell(s: State, who: AccountId, id: KittyIndex, price: Option<Balance>): (r: Step<Event, DispatchError>)
    ensures id !in s.kitties ==> r == Step(Failure(Module(KittyNotExist)), s)
    ensures id in s.kitties && s.kitties[id].owner != who ==> r == Step(Failure(Module(NotOwner)), s)
    ensures id in s.kitties && s.kitties[id].owner == who ==>
      && r.result == Success(SellKitty(who, id, price))
      && r.post == s.(kitties := s.kitties[id := Kitty(s.kitties[id].dna, who, price)])
  {
    var m := SetPrice(s, who, id, price);
    match m.result
    case Failure(e) => Step(Failure(Module(e)), s)
    case Success(_) => Step(Success(SellKitty(who, id, price)), m.post)
  }

  /** `CancelSell(who, id)`: `set_price` with no price, taking the kitty off sale. */
  function CancelSell(s: State, who: AccountId, id: KittyIndex): (r: Step<Event, DispatchError>)
    ensures id !in s.kitties ==> r == Step(Failure(Module(KittyNotExist)), s)
    ensures id in s.kitties && s.kitties[id].owner != who ==> r == Step(Failure(Module(NotOwner)), s)
    ensures id in s.kitties && s.kitties[id].owner == who ==>
      && r.result == Success(CancelSellKitty(who, id))
      && r.post == s.(kitties := s.kitties[id := Kitty(s.kitties[id].dna, who, None)])
  {
    var m := SetPrice(s, who, id, None);
    match m.result
    case Failure(e) => Step(Failure(Module(e)), s)
    case Success(_) => Step(Success(CancelSellKitty(who, id)), m.post)
  }

  /** Listing then cancelling returns a kitty's record to its state before the listing, when it was not on sale. */
  lemma SellThenCancel(s: State, who: AccountId, id: KittyIndex, price: Option<Balance>)
    requires id in s.kitties && s.kitties[id].price.None?
    ensures CancelSell(Sell(s, who, id, price).post, who, id).post == s
  {
  }

  /** The checks `buy` makes before moving any money, in the order it makes them. */
  function BuyCheck(s: State, buyer: AccountId, id: KittyIndex, bid: Balance): (r: Option<Error>)
    ensures r == Some(KittyNotExist) <==> id !in s.kitties
    ensures id in s.kitties && buyer == s.kitties[id].owner ==> r == Some(CanNotBuyTheKittyYouOwned)
    ensures id in s.kitties && buyer != s.kitties[id].owner && s.kitties[id].price.None?
      ==> r == Some(TheKittyIsNotOnSell)
    ensures id in s.kitties && buyer != s.kitties[id].owner && s.kitties[id].price.Some? && bid < s.kitties[id].price.value
      ==> r == Some(BidPriceIsTooLow)
    ensures id in s.kitties && buyer != s.kitties[id].owner && s.kitties[id].price.Some? && bid >= s.kitties[id].price.value
      && s.FreeBalance(buyer) < bid
      ==> r == Some(InsufficientBalance)
    ensures r.None? <==>
      && id in s.kitties && buyer != s.kitties[id].owner
      && s.kitties[id].price.Some? && bid >= s.kitties[id].price.value
      && s.FreeBalance(buyer) >= bid
  {
    if id !in s.kitties then Some(KittyNotExist)
    else if buyer == s.kitties[id].owner then Some(CanNotBuyTheKittyYouOwned)
    else if s.kitties[id].price.None? then Some(TheKittyIsNotOnSell)
    else if bid < s.kitties[id].price.value then Some(BidPriceIsTooLow)
    else if s.FreeBalance(buyer) < bid then Some(InsufficientBalance)
    else None
  }

  /**
   * `buy(buyer, id, bid)`, a `#[transactional]` call: after the checks,
   * `bid` moves from the buyer to the seller (if the ledger accepts the
   * transfer) and the kitty is relocated to the buyer; a failure of either
   * step discards both, so the call fails with storage as it was.
   */
  function Buy(s: State, buyer: AccountId, id: KittyIndex, bid: Balance, ledgerAccepts: bool): (r: Step<Event, DispatchError>)
    ensures r.result.Failure? ==> r.post == s
    ensures BuyCheck(s, buyer, id, bid).Some? ==> r.result == Failure(Module(BuyCheck(s, buyer, id, bid).value))
    ensures BuyCheck(s, buyer, id, bid).None? && !ledgerAccepts ==> r.result == Failure(LedgerRejected)
    ensures r.result.Success? <==>
      BuyCheck(s, buyer, id, bid).None? && ledgerAccepts && id in s.OwnedBy(s.kitties[id].owner)
    ensures r.result.Success? ==>
      var seller := s.kitties[id].owner;
      && r.result.value == BuyKitty(buyer, seller, id, bid)
      && r.post == Relocate(s.(balances := Currency.Transfer(s.balances, buyer, seller, bid)), id, buyer).post
  {
    match BuyCheck(s, buyer, id, bid)
    case Some(e) => Step(Failure(Module(e)), s)
    case None =>
      var seller := s.kitties[id].owner;
      if !ledgerAccepts then Step(Failure(LedgerRejected), s)
      else
        var paid := s.(balances := Currency.Transfer(s.balances, buyer, seller, bid));
        var moved := Relocate(paid, id, buyer);
        match moved.result
        case Failure(e) => Step(Failure(Module(e)), s)
        case Success(_) => Step(Success(BuyKitty(buyer, seller, id, bid)), moved.post)
  }

  /**
   * A successful `buy`: exactly the bid (not the
   * asking price) moves from buyer to seller, every other balance stays,
   * and exactly one kitty changes hands, to the buyer and off sale.
   */
  lemma BuyMovesBid(s: State, buyer: AccountId, id: KittyIndex, bid: Balance, ledgerAccepts: bool)
    requires Buy(s, buyer, id, bid, ledgerAccepts).result.Success?
    ensures id in s.kitties
    ensures
      var t, seller := Buy(s, buyer, id, bid, ledgerAccepts).post, s.kitties[id].owner;
      && seller != buyer
      && t.FreeBalance(buyer) == s.FreeBalance(buyer) - bid
      && t.FreeBalance(seller) == s.FreeBalance(seller) + bid
      && (forall a :: a != buyer && a != seller ==> t.FreeBalance(a) == s.FreeBalance(a))
      && t.kitties == s.kitties[id := Kitty(s.kitties[id].dna, buyer, None)]
      && t.OwnedBy(buyer) == s.OwnedBy(buyer) + [id]
      && t.OwnedBy(seller) == SwapRemove(s.OwnedBy(seller), IndexOf(s.OwnedBy(seller), id))
      && (forall a :: a != buyer && a != seller ==> t.OwnedBy(a) == s.OwnedBy(a))
      && t.count == s.count
  {
    var seller := s.kitties[id].owner;
    var paid := s.(balances := Currency.Transfer(s.balances, buyer, seller, bid));
    RelocateEffects(paid, id, buyer);
  }

  lemma BuyKeepsConsistent(s: State, buyer: AccountId, id: KittyIndex, bid: Balance, ledgerAccepts: bool)
    requires Consistent(s)
    ensures Consistent(Buy(s, buyer, id, bid, ledgerAccepts).post)
  {
    if Buy(s, buyer, id, bid, ledgerAccepts).result.Success? {
      var paid := s.(balances := Currency.Transfer(s.balances, buyer, s.kitties[id].owner, bid));
      ConsistentWithBalances(s, paid.balances);
      RelocateKeepsConsistent(paid, id, buyer);
    }
  }

  /** Every call keeps the ownership invariant, whether it succeeds or fails. */
  lemma CallsKeepConsistent(s: State, who: AccountId, other: AccountId, id: KittyIndex, id2: KittyIndex,
                            dna: Dna, price: Option<Balance>, bid: Balance, ledgerAccepts: bool)
    requires Consistent(s)
    ensures Consistent(Create(s, who, dna).post)
    ensures Consistent(Transfer(s, who, other, id).post)
    ensures Consistent(Breed(s, who, id, id2, dna).post)
    ensures Consistent(Sell(s, who, id, price).post)
    ensures Consistent(CancelSell(s, who, id).post)
    ensures Consistent(Buy(s, who, id, bid, ledgerAccepts).post)
  {
    MintKeepsConsistent(s, who, dna);
    RelocateKeepsConsistent(s, id, other);
    BreedKittyKeepsConsistent(s, who, id, id2, dna);
    SetPriceKeepsConsistent(s, who, id, price);
    SetPriceKeepsConsistent(s, who, id, None);
    BuyKeepsConsistent(s, who, id, bid, ledgerAccepts);
  }

  /**
   * The genesis `build`: every configured (owner, genome) pair is minted in
   * order through `mint`, whose errors are discarded.
   */
  function Genesis(config: seq<(AccountId, Dna)>, balances: map<AccountId, Balance>): (s: State)
    ensures s.Count() == if |config| <= U32_MAX then |config| else U32_MAX
    ensures s.balances == balances
    decreases |config|
  {
    if config == [] then Empty(balances)
    else
      var last := config[|config| - 1];
      Mint(Genesis(config[..|config| - 1], balances), last.0, last.1).post
  }

  lemma {:induction false} GenesisConsistent(config: seq<(AccountId, Dna)>, balances: map<AccountId, Balance>)
    ensures Consistent(Genesis(config, balances))
    decreases |config|
  {
    if config == [] {
      EmptyConsistent(balances);
    } else {
      var last := config[|config| - 1];
      GenesisConsistent(config[..|config| - 1], balances);
      MintKeepsConsistent(Genesis(config[..|config| - 1], balances), last.0, last.1);
    }
  }

  /** The ids genesis gives `a`: the positions of its entries, in ascending order. */
  function GenesisIds(config: seq<(AccountId, Dna)>, a: AccountId): seq<KittyIndex>
    requires |config| <= U32_MAX
    decreases |config|
  {
    if config == [] then []
    else
      var n := |config| - 1;
      GenesisIds(config[..n], a) + (if config[n].0 == a then [n] else [])
  }

  /**
   * With fewer than 2^32 entries, genesis mints them all: kitty i is the
   * i-th pair with no price, the counter is the number of pairs, each
   * account's list holds its kitties in configuration order, and the
   * balances are those of the ledger's own genesis.
   */
  lemma {:induction false} GenesisContents(config: seq<(AccountId, Dna)>, balances: map<AccountId, Balance>)
    requires |config| <= U32_MAX
    ensures
      var s := Genesis(config, balances);
      && s.Count() == |config|
      && (forall id: KittyIndex :: id in s.kitties <==> id < |config|)
      && (forall i :: 0 <= i < |config| ==> s.kitties[i] == Kitty(config[i].1, config[i].0, None))
      && (forall a :: s.OwnedBy(a) == GenesisIds(config, a))
      && s.balances == balances
    decreases |config|
  {
    if config != [] {
      var n := |config| - 1;
      var prefix := config[..n];
      GenesisContents(prefix, balances);
      var p := Genesis(prefix, balances);
      assert p.count != Some(U32_MAX);
      assert forall i :: 0 <= i < n ==> prefix[i] == config[i];
    }
  }

  /** The test runtime's genesis: kitty 0 for account 1, kitty 1 for account 2, balances 100 and 100. */
  const DnaA: Dna := [0, 1, 0, 0, 0, 0, 0, 0, 0, 0, 0, 0, 0, 0, 0, 0]
  const DnaB: Dna := [1, 1, 0, 0, 0, 0, 0, 0, 0, 0, 0, 0, 0, 0, 0, 0]
  const MockConfig: seq<(AccountId, Dna)> := [(1, DnaA), (2, DnaB)]
  const MockBalances: map<AccountId, Balance> := map[1 := 100, 2 := 100]

  lemma ScenarioGenesis()
    ensures Genesis(MockConfig, MockBalances)
         == State(Some(2), map[0 := Kitty(DnaA, 1, None), 1 := Kitty(DnaB, 2, None)], map[1 := [0], 2 := [1]], MockBalances)
  {
    assert MockConfig[..1][..0] == [] && MockConfig[..1][0] == (1, DnaA);
    assert Genesis(MockConfig[..1][..0], MockBalances) == Empty(MockBalances);
    var g1 := Genesis(MockConfig[..1], MockBalances);
    assert g1 == Mint(Empty(MockBalances), 1, DnaA).post;
    assert NextId(None) == Success(0);
    assert Empty(MockBalances).OwnedBy(1) + [0] == [0];
    assert g1 == State(Some(1), map[0 := Kitty(DnaA, 1, None)], map[1 := [0]], MockBalances);
    assert Genesis(MockConfig, MockBalances) == Mint(g1, 2, DnaB).post;
    assert g1.OwnedBy(2) + [1] == [1];
  }

  lemma ScenarioCreate(dna: Dna)
    ensures
      var s0 := State(Some(2), map[0 := Kitty(DnaA, 1, None), 1 := Kitty(DnaB, 2, None)], map[1 := [0], 2 := [1]], MockBalances);
      Create(s0, 1, dna) == Step(Success(KittyCreate(1, 2)),
        State(Some(3), map[0 := Kitty(DnaA, 1, None), 1 := Kitty(DnaB, 2, None), 2 := Kitty(dna, 1, None)], map[1 := [0, 2], 2 := [1]], MockBalances))
  {
    var s0 := State(Some(2), map[0 := Kitty(DnaA, 1, None), 1 := Kitty(DnaB, 2, None)], map[1 := [0], 2 := [1]], MockBalances);
    assert s0.OwnedBy(1) + [2] == [0, 2];
  }

  lemma ScenarioBuy(s2: State, dna: Dna)
    requires s2 == State(Some(3), map[0 := Kitty(DnaA, 1, Some(5)), 1 := Kitty(DnaB, 2, None), 2 := Kitty(dna, 1, None)], map[1 := [0, 2], 2 := [1]], MockBalances)
    ensures Buy(s2, 2, 0, 6, true) == Step(Success(BuyKitty(2, 1, 0, 6)),
        State(Some(3), map[0 := Kitty(DnaA, 2, None), 1 := Kitty(DnaB, 2, None), 2 := Kitty(dna, 1, None)], map[1 := [2], 2 := [1, 0]], map[1 := 106, 2 := 94]))
  {
    assert BuyCheck(s2, 2, 0, 6).None?;
    assert Currency.Transfer(MockBalances, 2, 1, 6) == map[1 := 106, 2 := 94];
    assert IndexOf([0, 2], 0) == 0;
    assert SwapRemove([0, 2], 0) == [2];
    var paid := s2.(balances := map[1 := 106, 2 := 94]);
    assert paid.OwnedBy(1) == [0, 2];
    var removed := paid.(owned := paid.owned[1 := [2]]);
    assert removed.OwnedBy(2) + [0] == [1, 0];
  }

  /**
   * A whole session on the test runtime's genesis: account 1
   * creates kitty 2, lists kitty 0 at 5, cancels, lists again; account 2
   * buys kitty 0 bidding 6.
   */
  lemma Scenario(dna: Dna)
    ensures
      var s0 := Genesis(MockConfig, MockBalances);
      var c := Create(s0, 1, dna);
      var l := Sell(c.post, 1, 0, Some(5));
      var u := CancelSell(l.post, 1, 0);
      var l2 := Sell(u.post, 1, 0, Some(5));
      var b := Buy(l2.post, 2, 0, 6, true);
      && s0.Count() == 2 && s0.OwnedBy(1) == [0] && s0.OwnedBy(2) == [1]
      && c.result == Success(KittyCreate(1, 2)) && c.post.Count() == 3 && c.post.OwnedBy(1) == [0, 2]
      && l.result == Success(SellKitty(1, 0, Some(5))) && 0 in l.post.kitties && l.post.kitties[0].price == Some(5)
      && u.result == Success(CancelSellKitty(1, 0)) && 0 in u.post.kitties && u.post.kitties[0].price == None
      && b.result == Success(BuyKitty(2, 1, 0, 6))
      && 0 in b.post.kitties && b.post.kitties[0].owner == 2 && b.post.kitties[0].price == None
      && b.post.OwnedBy(1) == [2] && b.post.OwnedBy(2) == [1, 0]
      && b.post.FreeBalance(1) == 106 && b.post.FreeBalance(2) == 94
  {
    ScenarioGenesis();
    var s0 := Genesis(MockConfig, MockBalances);
    ScenarioCreate(dna);
    var c := Create(s0, 1, dna);
    var l := Sell(c.post, 1, 0, Some(5));
    assert l.post == c.post.(kitties := c.post.kitties[0 := Kitty(DnaA, 1, Some(5))]);
    var u := CancelSell(l.post, 1, 0);
    assert u.post == c.post;
    var l2 := Sell(u.post, 1, 0, Some(5));
    ScenarioBuy(l2.post, dna);
  }
}
