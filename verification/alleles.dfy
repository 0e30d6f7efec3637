/**
  Genotypes as 4-bit allele masks.

  A genotype is the set of nucleotide bases called at a site, packed into a
  bit mask: A = 1, C = 2, G = 4, T = 8. The all-bits value 15 is the
  ambiguous "N" call. This module fixes the encoding and gives every mask an
  abstract meaning, the set of bases it holds, so that the bit-level
  operations of the allele utilities can be stated as set relations.
*/
module Alleles {

  /** The four nucleotide bases. */
  datatype Base = Adenine | Cytosine | Guanine | Thymine

  /** A genotype bit mask of four bits. */
  type Genotype = bv4

  const A: Genotype := 1
  const C: Genotype := 2
  const G: Genotype := 4
  const T: Genotype := 8

  /** The ambiguous call: every base present. */
  const N: Genotype := 15

  const AllBases: set<Base> := {Adenine, Cytosine, Guanine, Thymine}

  /** The single-bit mask of one base. */
  function Bit(b: Base): (g: Genotype)
    ensures g in {A, C, G, T}
  {
    match b
    case Adenine => A
    case Cytosine => C
    case Guanine => G
    case Thymine => T
  }

  /** The set of bases a genotype mask holds. */
  function Bases(g: Genotype): (s: set<Base>)
  {
    set b <- AllBases | g & Bit(b) != 0
  }

  /** The mask that holds exactly the given bases; the inverse of Bases. */
  function FromBases(s: set<Base>): (g: Genotype)
  {
    (if Adenine in s then A else 0)
    | (if Cytosine in s then C else 0)
    | (if Guanine in s then G else 0)
    | (if Thymine in s then T else 0)
  }

  /** Bases is onto: FromBases is its right inverse. */
  lemma BasesOfFromBases(s: set<Base>)
    ensures Bases(FromBases(s)) == s
  {
    forall b: Base
      ensures b in Bases(FromBases(s)) <==> b in s
    {
      match b
      case Adenine =>
      case Cytosine =>
      case Guanine =>
      case Thymine =>
    }
  }

  /** FromBases undoes Bases. */
  lemma FromBasesOfBases(g: Genotype)
    ensures FromBases(Bases(g)) == g
  {
  }

  /** Bases(g) == Bases(h) only when g == h. */
  lemma BasesInjective(g: Genotype, h: Genotype)
    ensures Bases(g) == Bases(h) <==> g == h
  {
    if Bases(g) == Bases(h) {
      FromBasesOfBases(g);
      FromBasesOfBases(h);
    }
  }

  /** Bitwise or of two masks holds the bases of both. */
  lemma BasesOfUnion(a: Genotype, b: Genotype)
    ensures Bases(a | b) == Bases(a) + Bases(b)
  {
  }

  /** The mask of a single base holds that base and nothing else. */
  lemma BasesOfBit(b: Base)
    ensures Bases(Bit(b)) == {b}
  {
  }

  /** The base `b` if the mask holds it, otherwise nothing. */
  function BitSet(g: Genotype, b: Base): (s: set<Base>)
    ensures s <= {b}
  {
    if g & Bit(b) != 0 then {b} else {}
  }

  /** One if the mask holds the base's bit, zero otherwise. */
  function BitCount(g: Genotype, b: Base): (n: nat)
  {
    if g & Bit(b) != 0 then 1 else 0
  }

  lemma DisjointUnionCardinality(s: set<Base>, t: set<Base>)
    requires s !! t
    ensures |s + t| == |s| + |t|
  {
  }

  /** A mask's bases, one bit at a time. */
  lemma BasesAsUnion(g: Genotype)
    ensures Bases(g) == BitSet(g, Adenine) + BitSet(g, Cytosine) + BitSet(g, Guanine) + BitSet(g, Thymine)
  {
    forall b: Base
      ensures b in Bases(g)
              <==> b in BitSet(g, Adenine) + BitSet(g, Cytosine) + BitSet(g, Guanine) + BitSet(g, Thymine)
    {
      match b
      case Adenine =>
      case Cytosine =>
      case Guanine =>
      case Thymine =>
    }
  }

  /** A mask holds as many bases as it has set bits. */
  lemma CardinalityOfBases(g: Genotype)
    ensures |Bases(g)|
            == BitCount(g, Adenine) + BitCount(g, Cytosine) + BitCount(g, Guanine) + BitCount(g, Thymine)
  {
    var sA, sC, sG, sT := BitSet(g, Adenine), BitSet(g, Cytosine), BitSet(g, Guanine), BitSet(g, Thymine);
    assert |sA| == BitCount(g, Adenine);
    assert |sC| == BitCount(g, Cytosine);
    assert |sG| == BitCount(g, Guanine);
    assert |sT| == BitCount(g, Thymine);
    DisjointUnionCardinality(sA, sC);
    DisjointUnionCardinality(sA + sC, sG);
    DisjointUnionCardinality(sA + sC + sG, sT);
    BasesAsUnion(g);
  }
}
