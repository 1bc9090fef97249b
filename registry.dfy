/**
 * The pallet's storage as a value, and its internal operations (`mint`,
 * `transfer_kitty_to`, `breed_kitty`, `set_price`) as transitions from one
 * storage value to the next, with the ownership invariant they keep.
 */
module Registry {
  import opened Wrappers
  import opened KittyTypes
  import opened OwnedList
  import Genome
  import Currency

  /**
   * `KittiesCount` (unset is None), `Kitties` (an absent key reads as None),
   * `KittiesOwned` (an absent key reads as the empty list), and the free
   * balances of the currency ledger.
   */
  datatype State = State(
    count: Option<KittyIndex>,
    kitties: map<KittyIndex, Kitty>,
    owned: map<AccountId, seq<KittyIndex>>,
    balances: map<AccountId, Balance>)
  {
    /** The counter's value, unset reading as 0. */
    function Count(): nat {
      if count.Some? then count.value else 0
    }

    /** `KittiesOwned::get(a)`. */
    function OwnedBy(a: AccountId): seq<KittyIndex> {
      if a in owned then owned[a] else []
    }

    /** How many times `id` is listed for `a`. */
    function Occurrences(a: AccountId, id: KittyIndex): nat {
      multiset(OwnedBy(a))[id]
    }

    function FreeBalance(a: AccountId): Balance {
      Currency.FreeBalance(balances, a)
    }
  }

  /** The storage before genesis: nothing minted, only balances. */
  function Empty(balances: map<AccountId, Balance>): State {
    State(None, map[], map[], balances)
  }

  /** An operation's outcome together with the storage it leaves behind. */
  datatype Step<T, E> = Step(result: Result<T, E>, post: State)

  /**
   * The ownership invariant: every kitty is listed exactly once, in its
   * owner's list and in no other, and only existing kitties are listed;
   * every kitty's id is below the counter (so the next id is fresh).
   */
  ghost predicate Consistent(s: State) {
    && (forall id :: id in s.kitties ==> id < s.Count())
    && (forall a, id :: s.Occurrences(a, id) == if id in s.kitties && s.kitties[id].owner == a then 1 else 0)
  }

  /** Read from a consistent storage, the index is exact in both directions. */
  lemma ConsistentIndex(s: State, a: AccountId, id: KittyIndex)
    requires Consistent(s)
    ensures id in s.OwnedBy(a) <==> id in s.kitties && s.kitties[id].owner == a
    ensures id in s.OwnedBy(a) ==> multiset(s.OwnedBy(a))[id] == 1
  {
    assert s.Occurrences(a, id) == multiset(s.OwnedBy(a))[id];
  }

  /** The ownership invariant does not depend on the balances. */
  lemma ConsistentWithBalances(s: State, balances: map<AccountId, Balance>)
    requires Consistent(s)
    ensures Consistent(s.(balances := balances))
  {
    var t := s.(balances := balances);
    forall a, x
      ensures t.Occurrences(a, x) == if x in t.kitties && t.kitties[x].owner == a then 1 else 0
    {
      assert t.Occurrences(a, x) == s.Occurrences(a, x);
    }
  }

  lemma EmptyConsistent(balances: map<AccountId, Balance>)
    ensures Consistent(Empty(balances))
  {
  }

  /**
   * The id allocation shared by `mint` and `breed_kitty`: the counter's
   * value, or `KittiesCountOverflow` when it is already `u32::MAX`.
   */
  function NextId(count: Option<KittyIndex>): (r: Result<KittyIndex, Error>)
    ensures r.Failure? <==> count == Some(U32_MAX)
    ensures r.Failure? ==> r.error == KittiesCountOverflow
    ensures r.Success? ==> r.value < U32_MAX && r.value == (if count.Some? then count.value else 0)
  {
    match count
    case Some(id) => if id == U32_MAX then Failure(KittiesCountOverflow) else Success(id)
    case None => Success(0)
  }

  /** The three writes that end `mint` and `breed_kitty`. */
  function AddKitty(s: State, id: KittyIndex, kitty: Kitty): (t: State)
    requires id < U32_MAX
    ensures t.Count() == id + 1
    ensures t.kitties == s.kitties[id := kitty]
    ensures t.OwnedBy(kitty.owner) == s.OwnedBy(kitty.owner) + [id]
    ensures forall a :: a != kitty.owner ==> t.OwnedBy(a) == s.OwnedBy(a)
    ensures t.balances == s.balances
  {
    State(Some(id + 1), s.kitties[id := kitty], s.owned[kitty.owner := s.OwnedBy(kitty.owner) + [id]], s.balances)
  }

  /** `mint(acct, Some(dna))`. */
  function Mint(s: State, acct: AccountId, dna: Dna): (r: Step<KittyIndex, Error>)
    ensures r.result.Failure? <==> s.count == Some(U32_MAX)
    ensures r.result.Failure? ==> r.result.error == KittiesCountOverflow && r.post == s
    ensures r.result.Success? ==>
      var id := r.result.value;
      && id == s.Count() && r.post.Count() == s.Count() + 1
      && r.post.kitties == s.kitties[id := Kitty(dna, acct, None)]
      && r.post.OwnedBy(acct) == s.OwnedBy(acct) + [id]
      && (forall a :: a != acct ==> r.post.OwnedBy(a) == s.OwnedBy(a))
      && r.post.balances == s.balances
  {
    match NextId(s.count)
    case Failure(e) => Step(Failure(e), s)
    case Success(id) => Step(Success(id), AddKitty(s, id, Kitty(dna, acct, None)))
  }

  /** Under the invariant, a minted id has never been used. */
  lemma MintIsFresh(s: State, acct: AccountId, dna: Dna)
    requires Consistent(s) && Mint(s, acct, dna).result.Success?
    ensures Mint(s, acct, dna).result.value !in s.kitties
  {
  }

  lemma {:induction false} AddKittyKeepsConsistent(s: State, id: KittyIndex, kitty: Kitty)
    requires Consistent(s) && id == s.Count() && id < U32_MAX
    ensures Consistent(AddKitty(s, id, kitty))
  {
    var t := AddKitty(s, id, kitty);
    forall a, x
      ensures t.Occurrences(a, x) == if x in t.kitties && t.kitties[x].owner == a then 1 else 0
    {
      assert s.Occurrences(a, x) == if x in s.kitties && s.kitties[x].owner == a then 1 else 0;
      assert s.Occurrences(a, id) == 0;
      if a == kitty.owner {
        assert t.OwnedBy(a) == s.OwnedBy(a) + [id];
      } else {
        assert t.OwnedBy(a) == s.OwnedBy(a);
      }
    }
  }

  lemma MintKeepsConsistent(s: State, acct: AccountId, dna: Dna)
    requires Consistent(s)
    ensures Consistent(Mint(s, acct, dna).post)
  {
    if s.count != Some(U32_MAX) {
      AddKittyKeepsConsistent(s, s.Count(), Kitty(dna, acct, None));
    }
  }

  /**
   * `transfer_kitty_to(id, receiver)`, the relocation primitive: the id
   * leaves the old owner's list by `swap_remove`, is appended to the
   * receiver's list (read after that removal, which matters when the two
   * are the same account), and the record gets the new owner and no price.
   */
  function Relocate(s: State, id: KittyIndex, receiver: AccountId): (r: Step<(), Error>)
    ensures id !in s.kitties ==> r == Step(Failure(KittyNotExist), s)
    ensures id in s.kitties && id !in s.OwnedBy(s.kitties[id].owner) ==> r == Step(Failure(NotOwner), s)
    ensures r.result.Success? <==> id in s.kitties && id in s.OwnedBy(s.kitties[id].owner)
  {
    if id !in s.kitties then Step(Failure(KittyNotExist), s)
    else
      var kitty := s.kitties[id];
      var sender := kitty.owner;
      var senderVec := s.OwnedBy(sender);
      if id !in senderVec then Step(Failure(NotOwner), s)
      else
        var removed := s.(owned := s.owned[sender := SwapRemove(senderVec, IndexOf(senderVec, id))]);
        var pushed := removed.owned[receiver := removed.OwnedBy(receiver) + [id]];
        Step(Success(()), s.(kitties := s.kitties[id := kitty.(owner := receiver, price := None)], owned := pushed))
  }

  /**
   * What a successful relocation does: the record keeps its genome and gets
   * the receiver as owner and no price; the sender's list loses the id by
   * `swap_remove`; the receiver's list gains it at the end; no other record,
   * no other list, the counter and the balances stay as they were.
   */
  lemma RelocateEffects(s: State, id: KittyIndex, receiver: AccountId)
    requires Relocate(s, id, receiver).result.Success?
    ensures id in s.kitties
    ensures
      var kitty, t := s.kitties[id], Relocate(s, id, receiver).post;
      var v := s.OwnedBy(kitty.owner);
      && id in v
      && t.kitties == s.kitties[id := Kitty(kitty.dna, receiver, None)]
      && (kitty.owner != receiver ==> t.OwnedBy(kitty.owner) == SwapRemove(v, IndexOf(v, id)))
      && (kitty.owner != receiver ==> t.OwnedBy(receiver) == s.OwnedBy(receiver) + [id])
      && (kitty.owner == receiver ==> t.OwnedBy(receiver) == SwapRemove(v, IndexOf(v, id)) + [id])
      && (forall a :: a != kitty.owner && a != receiver ==> t.OwnedBy(a) == s.OwnedBy(a))
      && t.count == s.count && t.balances == s.balances
  {
  }

  /** The list multiplicities after a relocation: one `id` moves from the sender to the receiver. */
  lemma {:induction false} RelocateOccurrences(s: State, id: KittyIndex, receiver: AccountId, a: AccountId, x: KittyIndex)
    requires Relocate(s, id, receiver).result.Success?
    ensures id in s.kitties
    ensures Relocate(s, id, receiver).post.Occurrences(a, x) ==
      s.Occurrences(a, x)
      - (if a == s.kitties[id].owner && x == id then 1 else 0)
      + (if a == receiver && x == id then 1 else 0)
  {
    RelocateEffects(s, id, receiver);
    var sender, t := s.kitties[id].owner, Relocate(s, id, receiver).post;
    var v := s.OwnedBy(sender);
    var i := IndexOf(v, id);
    SwapRemoveMultiset(v, i);
    assert id in multiset(v);
    if a == sender && a == receiver {
      assert t.OwnedBy(a) == SwapRemove(v, i) + [id];
    } else if a == sender {
      assert t.OwnedBy(a) == SwapRemove(v, i);
    } else if a == receiver {
      assert t.OwnedBy(a) == s.OwnedBy(a) + [id];
    } else {
      assert t.OwnedBy(a) == s.OwnedBy(a);
    }
  }

  lemma {:induction false} RelocateKeepsConsistent(s: State, id: KittyIndex, receiver: AccountId)
    requires Consistent(s)
    ensures Consistent(Relocate(s, id, receiver).post)
  {
    var r := Relocate(s, id, receiver);
    if r.result.Success? {
      var t := r.post;
      RelocateEffects(s, id, receiver);
      forall a, x
        ensures t.Occurrences(a, x) == if x in t.kitties && t.kitties[x].owner == a then 1 else 0
      {
        RelocateOccurrences(s, id, receiver, a, x);
        assert s.Occurrences(a, x) == if x in s.kitties && s.kitties[x].owner == a then 1 else 0;
      }
    }
  }

  /** The checks of `breed_kitty` before the id is allocated, in the order they run. */
  function BreedCheck(s: State, who: AccountId, id1: KittyIndex, id2: KittyIndex): (r: Option<Error>)
    ensures r == Some(SameParentIndex) <==> id1 == id2
    ensures r.None? <==>
      id1 != id2 && id1 in s.kitties && id2 in s.kitties && s.kitties[id1].owner == who && s.kitties[id2].owner == who
  {
    if id1 == id2 then Some(SameParentIndex)
    else if id1 !in s.kitties then Some(InvalidKittyIndex)
    else if id2 !in s.kitties then Some(InvalidKittyIndex)
    else if s.kitties[id1].owner != who then Some(NotOwner)
    else if s.kitties[id2].owner != who then Some(NotOwner)
    else None
  }

  /** `breed_kitty(who, id1, id2)`, with the random selector passed in. */
  function BreedKitty(s: State, who: AccountId, id1: KittyIndex, id2: KittyIndex, selector: Dna): (r: Step<KittyIndex, Error>)
    ensures id1 == id2 ==> r == Step(Failure(SameParentIndex), s)
    ensures id1 != id2 && (id1 !in s.kitties || id2 !in s.kitties) ==> r == Step(Failure(InvalidKittyIndex), s)
    ensures id1 != id2 && id1 in s.kitties && id2 in s.kitties && (s.kitties[id1].owner != who || s.kitties[id2].owner != who)
      ==> r == Step(Failure(NotOwner), s)
    ensures r.result.Failure? ==> r.post == s
    ensures r.result.Success? <==> BreedCheck(s, who, id1, id2).None? && s.count != Some(U32_MAX)
    ensures BreedCheck(s, who, id1, id2).None? && s.count == Some(U32_MAX) ==> r.result == Failure(KittiesCountOverflow)
    ensures r.result.Success? ==>
      var id := r.result.value;
      && id == s.Count() && r.post.Count() == s.Count() + 1
      && r.post.kitties == s.kitties[id := Kitty(Genome.Crossover(selector, s.kitties[id1].dna, s.kitties[id2].dna), who, None)]
      && r.post.OwnedBy(who) == s.OwnedBy(who) + [id]
      && (forall a :: a != who ==> r.post.OwnedBy(a) == s.OwnedBy(a))
      && r.post.balances == s.balances
  {
    match BreedCheck(s, who, id1, id2)
    case Some(e) => Step(Failure(e), s)
    case None =>
      match NextId(s.count)
      case Failure(e) => Step(Failure(e), s)
      case Success(id) =>
        var child := Genome.Crossover(selector, s.kitties[id1].dna, s.kitties[id2].dna);
        Step(Success(id), AddKitty(s, id, Kitty(child, who, None)))
  }

  lemma BreedKittyKeepsConsistent(s: State, who: AccountId, id1: KittyIndex, id2: KittyIndex, selector: Dna)
    requires Consistent(s)
    ensures Consistent(BreedKitty(s, who, id1, id2, selector).post)
  {
    var r := BreedKitty(s, who, id1, id2, selector);
    if r.result.Success? {
      AddKittyKeepsConsistent(s, s.Count(), Kitty(Genome.Crossover(selector, s.kitties[id1].dna, s.kitties[id2].dna), who, None));
    }
  }

  /** `set_price(who, id, price)`: only the record's price changes. */
  function SetPrice(s: State, who: AccountId, id: KittyIndex, price: Option<Balance>): (r: Step<(), Error>)
    ensures id !in s.kitties ==> r == Step(Failure(KittyNotExist), s)
    ensures id in s.kitties && s.kitties[id].owner != who ==> r == Step(Failure(NotOwner), s)
    ensures id in s.kitties && s.kitties[id].owner == who ==>
      && r.result.Success?
      && r.post.kitties == s.kitties[id := Kitty(s.kitties[id].dna, who, price)]
      && r.post.count == s.count && r.post.owned == s.owned && r.post.balances == s.balances
  {
    if id !in s.kitties then Step(Failure(KittyNotExist), s)
    else if s.kitties[id].owner != who then Step(Failure(NotOwner), s)
    else Step(Success(()), s.(kitties := s.kitties[id := s.kitties[id].(price := price)]))
  }

  lemma SetPriceKeepsConsistent(s: State, who: AccountId, id: KittyIndex, price: Option<Balance>)
    requires Consistent(s)
    ensures Consistent(SetPrice(s, who, id, price).post)
  {
    var t := SetPrice(s, who, id, price).post;
    forall a, x
      ensures t.Occurrences(a, x) == if x in t.kitties && t.kitties[x].owner == a then 1 else 0
    {
      assert s.Occurrences(a, x) == if x in s.kitties && s.kitties[x].owner == a then 1 else 0;
    }
  }
}
