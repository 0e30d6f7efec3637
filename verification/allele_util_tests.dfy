/**
  The behaviour the allele utility's test suite asserts, proved of the model.

  Each lemma covers one block of the suite: the concrete cases as ensures
  clauses, the suite's loops over genotypes 1..14 as bounded quantifiers, and
  the enumerated table of LOH pairs as a set.
*/
module AlleleUtilTests {
  import opened Alleles
  import opened AlleleUtil

  /** count_alleles on every genotype the suite spells out. */
  lemma CountAllelesCases()
    ensures CountAlleles(0) == 0
    ensures CountAlleles(A) == 1 && CountAlleles(C) == 1 && CountAlleles(G) == 1 && CountAlleles(T) == 1
    ensures CountAlleles(A | C) == 2 && CountAlleles(A | G) == 2 && CountAlleles(C | G) == 2
    ensures CountAlleles(A | T) == 2 && CountAlleles(C | T) == 2 && CountAlleles(G | T) == 2
    ensures CountAlleles(A | C | G) == 3 && CountAlleles(A | C | T) == 3 && CountAlleles(A | G | T) == 3
    ensures CountAlleles(A | C | T | G) == 4
  {
  }

  /** genotype_set_difference on the suite's four cases. */
  lemma GenotypeSetDifferenceCases()
    ensures GenotypeSetDifference(A | C, C) == A
    ensures GenotypeSetDifference(A | C | G, C) == A | G
    ensures GenotypeSetDifference(A | C, A | C) == 0
    ensures GenotypeSetDifference(A, A | C) == 0
  {
  }

  /** Single-allele originals never show LOH, for every mutant 1..8. */
  lemma SingleAlleleOriginalsCases()
    ensures forall value: Genotype, j: Genotype
              | value in {A, C, G, T} && 1 <= j <= 8 :: !IsLoh(j, value)
  {
  }

  /** The suite's table of (mutant, original) pairs that are LOH with two or
      three alleles in the original. */
  const LohPairs: set<(Genotype, Genotype)> := {
    (A, A | C), (C, A | C),
    (A, A | G), (G, A | G),
    (A, A | T), (T, A | T),
    (C, C | G), (G, C | G),
    (C, C | T), (T, C | T),
    (G, G | T), (T, G | T),
    (A, A | C | G), (C, A | C | G), (G, A | C | G),
    (A | C, A | C | G), (A | G, A | C | G), (C | G, A | C | G),
    (A, A | C | T), (C, A | C | T), (T, A | C | T),
    (A | C, A | C | T), (A | T, A | C | T), (C | T, A | C | T),
    (A, A | G | T), (G, A | G | T), (T, A | G | T),
    (A | G, A | G | T), (A | T, A | G | T), (G | T, A | G | T),
    (C, C | G | T), (G, C | G | T), (T, C | G | T),
    (C | G, C | G | T), (C | T, C | G | T), (G | T, C | G | T)
  }

  /** Over all originals and mutants 1..14, LOH holds exactly for the pairs
      in the table. */
  lemma LohTable()
    ensures forall orig: Genotype, mut: Genotype | 1 <= orig < 15 && 1 <= mut < 15
              :: IsLoh(mut, orig) <==> (mut, orig) in LohPairs
  {
  }

  /** The N rule: every genotype 1..14 is an LOH of A|C|G|T. */
  lemma NCases()
    ensures forall i: Genotype | 1 <= i < 15 :: IsLoh(i, N)
  {
  }

  /** should_filter_as_loh on the suite's concrete cases, reference A. */
  lemma ShouldFilterAsLohCases()
    ensures G != A
    ensures ShouldFilterAsLoh(A, A, A | G)
    ensures ShouldFilterAsLoh(A, G, A | G)
    ensures ShouldFilterAsLoh(A, G, C | G)
    ensures ShouldFilterAsLoh(A, C, C | G)
    ensures !IsLoh(A | G, G) && IsLoh(G, A | G)
    ensures !ShouldFilterAsLoh(A, A | G, G)
  {
  }

  /** With a hom-ref normal, or identical calls, nothing 1..14 is filtered as LOH. */
  lemma ShouldFilterAsLohAllTumors()
    ensures forall i: Genotype | 1 <= i < 15 :: !ShouldFilterAsLoh(A, i, A) && !ShouldFilterAsLoh(A, i, i)
  {
  }

  /** Picking up a new allele, reference or not, is never filtered as LOH. */
  lemma ShouldFilterAsLohGainCases()
    ensures !ShouldFilterAsLoh(A, A | C | G, A | C)
    ensures !ShouldFilterAsLoh(A, A | T, A | C)
    ensures !ShouldFilterAsLoh(A, T, A | C)
    ensures !ShouldFilterAsLoh(A, T | G, G)
    ensures !ShouldFilterAsLoh(A, C | G, G)
    ensures !ShouldFilterAsLoh(A, A | G, G)
    ensures !ShouldFilterAsLoh(A, A, G)
  {
  }

  /** should_filter_as_gor on the suite's positive cases, reference A. */
  lemma ShouldFilterAsGorCases()
    ensures ShouldFilterAsGor(A, A, G)
    ensures ShouldFilterAsGor(A, A | G, G)
    ensures ShouldFilterAsGor(A, A | G, C | G)
    ensures ShouldFilterAsGor(A, T | A, T | G)
  {
  }

  /** With a hom-ref normal, or identical calls, nothing 1..14 is filtered as GOR. */
  lemma ShouldFilterAsGorAllTumors()
    ensures forall i: Genotype | 1 <= i < 15 :: !ShouldFilterAsGor(A, i, A) && !ShouldFilterAsGor(A, i, i)
  {
  }

  /** A het-snp normal picking up a new non-reference allele is not filtered as GOR. */
  lemma ShouldFilterAsGorHetGainCases()
    ensures !ShouldFilterAsGor(A, A | C | G, A | C)
    ensures !ShouldFilterAsGor(A, A | T, A | C)
    ensures !ShouldFilterAsGor(A, T, A | C)
  {
  }

  /** A hom-snp normal picking up a new non-reference allele is not filtered as GOR. */
  lemma ShouldFilterAsGorNonRefGainCases()
    ensures !ShouldFilterAsGor(A, T | G, G)
    ensures !ShouldFilterAsGor(A, C | G, G)
  {
  }

  /** The tri-allelic case: a T|C normal whose tumor picks up the reference
      is filtered. The suite's author doubts this matters, or is right, since
      the caller does not produce tri-allelic calls for one sample; it is kept
      as asserted, with the suite author's doubt recorded here. */
  lemma ShouldFilterAsGorTriallelic()
    ensures ShouldFilterAsGor(A, A | T | C, T | C)
  {
  }
}
