/**
  The allele-set predicates used to filter somatic variant calls.

  Each function works on genotype masks (see module Alleles). The filter
  predicates take their arguments in the order (reference base, tumor
  genotype, normal genotype). Every contract is stated in terms of the set of
  bases a mask holds, which is the meaning the bit operations implement.
*/
module AlleleUtil {
  import opened Alleles

  /** count_alleles: the number of distinct bases in a genotype. */
  function CountAlleles(g: Genotype): (n: nat)
    ensures n == |Bases(g)|
  {
    CardinalityOfBases(g);
    BitCount(g, Adenine) + BitCount(g, Cytosine) + BitCount(g, Guanine) + BitCount(g, Thymine)
  }

  /** genotype_set_difference: the bases of `a` that are not in `b`. */
  function GenotypeSetDifference(a: Genotype, b: Genotype): (d: Genotype)
    ensures Bases(d) == Bases(a) - Bases(b)
    ensures d == 0 <==> Bases(a) <= Bases(b)
  {
    BasesInjective(a & !b, 0);
    a & !b
  }

  /**
    is_loh: the mutant genotype is the original one with at least one base
    lost and none gained, i.e. a non-empty proper subset of it.
  */
  function IsLoh(mutant: Genotype, original: Genotype): (loh: bool)
    ensures !(mutant == N && original == N) ==>
              (loh <==> Bases(mutant) != {} && Bases(mutant) < Bases(original))
  {
    BasesInjective(mutant, 0);
    BasesInjective(mutant, original);
    mutant != 0 && GenotypeSetDifference(mutant, original) == 0 && mutant != original
  }

  /**
    should_filter_as_loh: a tumor call that only lost bases relative to the
    normal call is put down to loss of heterozygosity. The reference base
    does not take part in the decision.
  */
  function ShouldFilterAsLoh(refBase: Genotype, tumor: Genotype, normal: Genotype): (filter: bool)
    ensures !(tumor == N && normal == N) ==>
              (filter <==> Bases(tumor) != {} && Bases(tumor) < Bases(normal))
  {
    IsLoh(tumor, normal)
  }

  /**
    should_filter_as_gor: a tumor call whose bases absent from the normal call
    are exactly the reference base(s) is put down to a return to reference.
  */
  function ShouldFilterAsGor(refBase: Genotype, tumor: Genotype, normal: Genotype): (filter: bool)
    ensures filter <==> Bases(tumor) - Bases(normal) == Bases(refBase)
  {
    BasesInjective(GenotypeSetDifference(tumor, normal), refBase);
    GenotypeSetDifference(tumor, normal) == refBase
  }

  /** Removing a set's bases leaves nothing of it, removing nothing changes
      nothing, and removing the same bases twice is removing them once. */
  lemma GenotypeSetDifferenceLaws(a: Genotype, b: Genotype)
    ensures GenotypeSetDifference(a, a) == 0
    ensures GenotypeSetDifference(a, 0) == a
    ensures GenotypeSetDifference(GenotypeSetDifference(a, b), b) == GenotypeSetDifference(a, b)
    ensures GenotypeSetDifference(a, b) & b == 0
  {
  }

  /** An LOH transition strictly lowers the number of alleles, and never to
      zero. N against N is left open, as in IsLoh. */
  lemma LohLosesAlleles(mutant: Genotype, original: Genotype)
    requires !(mutant == N && original == N)
    requires IsLoh(mutant, original)
    ensures 1 <= CountAlleles(mutant) < CountAlleles(original)
  {
    var lost := Bases(original) - Bases(mutant);
    assert Bases(original) == Bases(mutant) + lost;
    assert lost != {};
  }

  /** A genotype with at most one allele has nothing to lose: it is never the
      original side of an LOH transition. */
  lemma SingleAlleleNeverLoh(mutant: Genotype, original: Genotype)
    requires CountAlleles(original) <= 1
    ensures !IsLoh(mutant, original)
  {
    if IsLoh(mutant, original) {
      LohLosesAlleles(mutant, original);
    }
  }

  /** Against the ambiguous call N every other non-empty genotype is an LOH. */
  lemma LohAgainstN(mutant: Genotype)
    requires mutant != 0 && mutant != N
    ensures IsLoh(mutant, N)
  {
  }

  /** LOH is a strict order on genotypes other than N: irreflexive,
      asymmetric and transitive. Whether N is an LOH of itself is left open. */
  lemma LohIsStrictOrder(a: Genotype, b: Genotype, c: Genotype)
    ensures a != N ==> !IsLoh(a, a)
    ensures IsLoh(a, b) && a != N ==> !IsLoh(b, a)
    ensures IsLoh(a, b) && IsLoh(b, c) ==> IsLoh(a, c)
  {
  }

  /** Adding alleles to a call never lowers its count. */
  lemma CountAllelesMonotone(a: Genotype, b: Genotype)
    ensures CountAlleles(a | b) >= CountAlleles(a)
    ensures CountAlleles(a | b) >= CountAlleles(b)
  {
    BasesOfUnion(a, b);
    assert Bases(a) <= Bases(a | b);
    assert Bases(b) <= Bases(a | b);
  }

  /** A tumor call that holds a base absent from the normal call is a gain,
      never an LOH, whatever that base is. */
  lemma GainIsNotFilteredAsLoh(refBase: Genotype, tumor: Genotype, normal: Genotype, gained: Base)
    requires gained in Bases(tumor) && gained !in Bases(normal)
    ensures !ShouldFilterAsLoh(refBase, tumor, normal)
  {
  }

  /** A homozygous normal call, or a tumor call identical to the normal one,
      is never filtered as LOH (N against N is left open). */
  lemma HomozygousOrIdenticalNotFilteredAsLoh(refBase: Genotype, tumor: Genotype, b: Base)
    ensures !ShouldFilterAsLoh(refBase, tumor, Bit(b))
    ensures tumor != N ==> !ShouldFilterAsLoh(refBase, tumor, tumor)
  {
    SingleAlleleNeverLoh(tumor, Bit(b));
  }

  /** For a single reference base, the GOR filter fires exactly when the tumor
      call gained the reference base and no other base. */
  lemma GorIsGainOfReferenceOnly(ref: Base, tumor: Genotype, normal: Genotype)
    ensures ShouldFilterAsGor(Bit(ref), tumor, normal) <==> Bases(tumor) - Bases(normal) == {ref}
  {
  }

  /** A hom-ref normal call, or a tumor call identical to the normal one, is
      never filtered as GOR: in both cases the tumor gained no reference base. */
  lemma HomRefOrIdenticalNotFilteredAsGor(ref: Base, tumor: Genotype)
    ensures !ShouldFilterAsGor(Bit(ref), tumor, Bit(ref))
    ensures !ShouldFilterAsGor(Bit(ref), tumor, tumor)
  {
    GorIsGainOfReferenceOnly(ref, tumor, Bit(ref));
    GorIsGainOfReferenceOnly(ref, tumor, tumor);
  }

  /** A tumor call that gained a non-reference base is never filtered as GOR. */
  lemma NonReferenceGainNotFilteredAsGor(ref: Base, tumor: Genotype, normal: Genotype, gained: Base)
    requires gained != ref
    requires gained in Bases(tumor) && gained !in Bases(normal)
    ensures !ShouldFilterAsGor(Bit(ref), tumor, normal)
  {
    GorIsGainOfReferenceOnly(ref, tumor, normal);
  }

  /** With a non-empty reference the two filters never both fire: an LOH
      gains nothing, a GOR gains the reference. This follows from the
      definitions; the suite asks no pair for both filters at once. */
  lemma LohAndGorExclusive(refBase: Genotype, tumor: Genotype, normal: Genotype)
    requires refBase != 0
    ensures !(ShouldFilterAsLoh(refBase, tumor, normal) && ShouldFilterAsGor(refBase, tumor, normal))
  {
  }
}
