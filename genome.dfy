/**
 * The breeding rule of `breed_kitty`: byte by byte, the child's genome is
 * `(selector & dna1) | (selector & dna2)`. This is not a balanced
 * crossover: a 0 bit of the selector forces a 0 bit in the child, and a 1
 * bit gives the OR of both parents' bits.
 */
module Genome {
  import opened KittyTypes

  /** The byte rule at one position. */
  function Mix(sel: Byte, a: Byte, b: Byte): (r: Byte)
    ensures r == sel & (a | b)
  {
    (sel & a) | (sel & b)
  }

  /** The genome the loop of `breed_kitty` produces, as a value. */
  function Crossover(sel: Dna, dna1: Dna, dna2: Dna): (child: Dna)
    ensures forall i :: 0 <= i < DNA_LEN ==> child[i] == sel[i] & (dna1[i] | dna2[i])
  {
    seq(DNA_LEN, i requires 0 <= i < DNA_LEN => Mix(sel[i], dna1[i], dna2[i]))
  }

  /** The loop `for i in 0..dna_1.len() { new_dna[i] = ... }` over a zeroed `[0u8; 16]`. */
  method CrossDna(sel: Dna, dna1: Dna, dna2: Dna) returns (child: Dna)
    ensures child == Crossover(sel, dna1, dna2)
  {
    var newDna := new Byte[DNA_LEN](_ => 0);
    for i := 0 to |dna1|
      invariant forall j :: 0 <= j < i ==> newDna[j] == Mix(sel[j], dna1[j], dna2[j])
    {
      newDna[i] := (sel[i] & dna1[i]) | (sel[i] & dna2[i]);
    }
    child := newDna[..];
  }

  const AllOnes: Dna := seq(DNA_LEN, _ => 0xFF)
  const AllZeros: Dna := seq(DNA_LEN, _ => 0)

  /** Every bit of the child lies under a 1 bit of the selector. */
  lemma CrossoverWithinSelector(sel: Dna, dna1: Dna, dna2: Dna, i: nat)
    requires i < DNA_LEN
    ensures Crossover(sel, dna1, dna2)[i] & !sel[i] == 0
    ensures Crossover(sel, dna1, dna2)[i] | sel[i] == sel[i]
  {
  }

  /** An all-ones selector gives the bytewise OR of the parents. */
  lemma CrossoverAllOnes(dna1: Dna, dna2: Dna)
    ensures forall i :: 0 <= i < DNA_LEN ==> Crossover(AllOnes, dna1, dna2)[i] == dna1[i] | dna2[i]
  {
  }

  /** An all-zero selector gives an all-zero genome, whatever the parents. */
  lemma CrossoverAllZeros(dna1: Dna, dna2: Dna)
    ensures Crossover(AllZeros, dna1, dna2) == AllZeros
  {
  }

  /** The order of the parents does not matter. */
  lemma CrossoverSymmetric(sel: Dna, dna1: Dna, dna2: Dna)
    ensures Crossover(sel, dna1, dna2) == Crossover(sel, dna2, dna1)
  {
  }
}
