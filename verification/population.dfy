/**
 Weighted head counts over a population of threads (or of lock nodes). A protocol
 keeps one program counter per thread in a sequence of arbitrary length; its counting
 laws are equalities between shared counters and such sums.
 */
module Population {

  function Sum<P>(pcs: seq<P>, w: P -> nat): nat
  {
    if pcs == [] then 0 else w(pcs[0]) + Sum(pcs[1..], w)
  }

  /** One thread moves: only its own summand changes. */
  lemma {:induction false} SumUpdate<P>(pcs: seq<P>, i: nat, p: P, w: P -> nat)
    requires i < |pcs|
    ensures Sum(pcs[i := p], w) + w(pcs[i]) == Sum(pcs, w) + w(p)
    ensures Sum(pcs, w) >= w(pcs[i])
  {
    if i == 0 {
      assert pcs[i := p][1..] == pcs[1..];
    } else {
      assert pcs[i := p][1..] == pcs[1..][i - 1 := p];
      SumUpdate(pcs[1..], i - 1, p, w);
    }
  }

  lemma {:induction false} SumAtLeast<P>(pcs: seq<P>, i: nat, w: P -> nat)
    requires i < |pcs|
    ensures Sum(pcs, w) >= w(pcs[i])
  {
    SumUpdate(pcs, i, pcs[i], w);
  }

  /** Two different threads contribute independently. */
  lemma {:induction false} SumAtLeastTwo<P>(pcs: seq<P>, i: nat, j: nat, w: P -> nat)
    requires i < j < |pcs|
    ensures Sum(pcs, w) >= w(pcs[i]) + w(pcs[j])
  {
    if i == 0 {
      SumAtLeast(pcs[1..], j - 1, w);
    } else {
      SumAtLeastTwo(pcs[1..], i - 1, j - 1, w);
    }
  }

  /** A positive sum has a positive summand. */
  lemma {:induction false} SumWitness<P>(pcs: seq<P>, w: P -> nat) returns (i: nat)
    requires Sum(pcs, w) > 0
    ensures i < |pcs| && w(pcs[i]) > 0
  {
    if w(pcs[0]) > 0 {
      i := 0;
    } else {
      i := SumWitness(pcs[1..], w);
      i := i + 1;
    }
  }

  lemma {:induction false} SumZero<P>(pcs: seq<P>, w: P -> nat)
    requires forall i :: 0 <= i < |pcs| ==> w(pcs[i]) == 0
    ensures Sum(pcs, w) == 0
  {
    if pcs != [] {
      SumZero(pcs[1..], w);
    }
  }
}
