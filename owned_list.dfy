/**
 * The two `Vec` operations the ownership index is maintained with:
 * `iter().position(|&id| id == kitty_id)` and `swap_remove`.
 */
module OwnedList {
  import opened Wrappers
  import opened KittyTypes

  /** The first position of `x` in `v`. */
  function IndexOf(v: seq<KittyIndex>, x: KittyIndex): (i: nat)
    requires x in v
    ensures i < |v| && v[i] == x && x !in v[..i]
  {
    if v[0] == x then 0
    else
      var j := IndexOf(v[1..], x);
      assert v[..j + 1] == [v[0]] + v[1..][..j];
      j + 1
  }

  /** `v.iter().position(|&id| id == x)`: the linear search for the first match. */
  method Position(v: seq<KittyIndex>, x: KittyIndex) returns (r: Option<nat>)
    ensures r.None? <==> x !in v
    ensures r.Some? ==> x in v && r.value == IndexOf(v, x)
  {
    var i := 0;
    while i < |v|
      invariant 0 <= i <= |v|
      invariant x !in v[..i]
    {
      if v[i] == x {
        return Some(i);
      }
      assert v[..i + 1] == v[..i] + [v[i]];
      i := i + 1;
    }
    assert v[..i] == v;
    return None;
  }

  /**
   * `Vec::swap_remove(i)`: the element at `i` leaves the list and the last
   * element takes its place, so the remaining order is not the old order.
   */
  function SwapRemove(v: seq<KittyIndex>, i: nat): (r: seq<KittyIndex>)
    requires i < |v|
    ensures |r| == |v| - 1
    ensures forall j :: 0 <= j < |r| && j != i ==> r[j] == v[j]
    ensures i < |r| ==> r[i] == v[|v| - 1]
  {
    if i == |v| - 1 then v[..i] else v[..i] + [v[|v| - 1]] + v[i + 1..|v| - 1]
  }

  /** Exactly one occurrence of the removed element leaves; nothing else does. */
  lemma {:induction false} SwapRemoveMultiset(v: seq<KittyIndex>, i: nat)
    requires i < |v|
    ensures multiset(SwapRemove(v, i)) == multiset(v) - multiset{v[i]}
  {
    var last := |v| - 1;
    if i == last {
      assert v == v[..i] + [v[i]];
    } else {
      assert v == v[..i] + [v[i]] + v[i + 1..last] + [v[last]];
    }
  }
}
