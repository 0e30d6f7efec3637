# Allele-set predicates for somatic-variant filtering

This project models the allele utilities of somatic-sniper (`sniper/allele_util.h`). A
genotype call is a 4-bit mask of nucleotide bases: A = 1, C = 2, G = 4, T = 8. The value 15
is the ambiguous "N" call. The five utilities are:

- `count_alleles(g)`: the number of bases in a call.
- `genotype_set_difference(a, b)`: the bases of `a` that are not in `b`.
- `is_loh(mutant, original)`: whether `mutant` is a loss of heterozygosity from `original`.
- `should_filter_as_loh(ref, tumor, normal)`: whether a tumor/normal pair looks like LOH.
- `should_filter_as_gor(ref, tumor, normal)`: whether a tumor/normal pair looks like a return to the reference base.

This model is built from the test suite alone, `test/lib/sniper/TestAlleleUtil.cpp`; the
definitions are inferred from it. They are the simplest ones that satisfy every assertion in
that suite:

- `is_loh(m, o)` holds when `m != 0`, `m & ~o == 0` and `m != o`.
- `should_filter_as_loh(r, t, n)` is `is_loh(t, n)`.
- `should_filter_as_gor(r, t, n)` holds when `genotype_set_difference(t, n) == r`.

The argument order of the two filters is (reference, tumor, normal). The suite's comments
fix it: "with a hom ref normal" is checked as `(A, i, A)`.

Files:

- `alleles.dfy` (module `Alleles`): the encoding. It defines `Genotype` (a `bv4`), the
  constants `A`, `C`, `G`, `T`, `N`, and the abstract meaning `Bases(g)`, the set of bases a
  mask holds. It also proves that this meaning is a bijection between masks and sets of bases.
- `allele_util.dfy` (module `AlleleUtil`): the five utilities. Each one's contract is stated
  as a set relation on `Bases`, and lemmas prove the properties the suite relies on.
- `allele_util_tests.dfy` (module `AlleleUtilTests`): every assertion of the suite about the
  library, proved of the model, plus the suite's own check that G is not the reference A.
  The suite's loops over genotypes 1..14 become bounded quantifiers. Its vector of 36 LOH
  pairs becomes the set `LohPairs`.

## Model

| member | source | states |
|---|---|---|
| Alleles.Bit | test/lib/sniper/TestAlleleUtil.cpp:10-15 | each base is encoded as one of the single-bit masks A = 1, C = 2, G = 4, T = 8 |
| Alleles.BasesOfBit | test/lib/sniper/TestAlleleUtil.cpp:10-15 | the mask of a single base holds that base and no other |
| Alleles.BasesOfUnion | test/lib/sniper/TestAlleleUtil.cpp:23-40 | the bitwise or of two masks, as the suite writes A\|C, holds exactly the bases of both |
| Alleles.BasesOfFromBases | test/lib/sniper/TestAlleleUtil.cpp:10-15 | every set of bases is held by some mask, so the 4-bit encoding covers all genotypes |
| Alleles.BasesInjective | test/lib/sniper/TestAlleleUtil.cpp:10-15 | two masks hold the same bases exactly when they are equal, so comparing masks is comparing genotypes |
| AlleleUtil.CountAlleles | test/lib/sniper/TestAlleleUtil.cpp:23-40 | count_alleles is the number of distinct bases in the call |
| AlleleUtil.GenotypeSetDifference | test/lib/sniper/TestAlleleUtil.cpp:42-47 | the result holds exactly the bases of `a` not in `b`, and it is 0 exactly when `a` is a subset of `b` (including `a == b`) |
| AlleleUtil.CountAllelesMonotone | test/lib/sniper/TestAlleleUtil.cpp:23-40 | adding alleles to a call never lowers its count: the count of a\|b is at least the count of a and of b |
| AlleleUtil.GenotypeSetDifferenceLaws | test/lib/sniper/TestAlleleUtil.cpp:42-47 | removing a set from itself gives 0, removing nothing changes nothing, removing twice is removing once, and no base of `b` survives |
| AlleleUtil.IsLoh | test/lib/sniper/TestAlleleUtil.cpp:57-112 | is_loh holds exactly when the mutant is a non-empty proper subset of the original (both directions), for every pair except N against N, which the suite leaves open |
| AlleleUtil.LohLosesAlleles | test/lib/sniper/TestAlleleUtil.cpp:50-55 | an LOH mutant keeps at least one allele and has strictly fewer alleles than the original, for every pair except N against N |
| AlleleUtil.SingleAlleleNeverLoh | test/lib/sniper/TestAlleleUtil.cpp:50-55 | an original with at most one allele is never the source of an LOH, whatever the mutant |
| AlleleUtil.LohAgainstN | test/lib/sniper/TestAlleleUtil.cpp:114-116 | every genotype other than 0 and N is an LOH of the ambiguous call N |
| AlleleUtil.LohIsStrictOrder | test/lib/sniper/TestAlleleUtil.cpp:128-129 | is_loh is irreflexive and asymmetric on genotypes other than N (G is an LOH of A\|G but not the reverse), and transitive |
| AlleleUtil.ShouldFilterAsLoh | test/lib/sniper/TestAlleleUtil.cpp:119-132 | the LOH filter fires exactly when the tumor's bases are a non-empty proper subset of the normal's, except for an N tumor against an N normal; the reference base plays no part |
| AlleleUtil.HomozygousOrIdenticalNotFilteredAsLoh | test/lib/sniper/TestAlleleUtil.cpp:134-143 | a single-base normal (hom-ref included) is never filtered as LOH for every tumor, and neither is a tumor identical to the normal unless both are N |
| AlleleUtil.GainIsNotFilteredAsLoh | test/lib/sniper/TestAlleleUtil.cpp:145-157 | a tumor holding any base absent from the normal, reference or not, is never filtered as LOH |
| AlleleUtil.ShouldFilterAsGor | test/lib/sniper/TestAlleleUtil.cpp:160-169 | the GOR filter fires exactly when the tumor's bases missing from the normal are the reference's bases |
| AlleleUtil.GorIsGainOfReferenceOnly | test/lib/sniper/TestAlleleUtil.cpp:163-169 | for a single reference base, GOR fires exactly when the tumor gained that base and nothing else |
| AlleleUtil.HomRefOrIdenticalNotFilteredAsGor | test/lib/sniper/TestAlleleUtil.cpp:171-180 | a hom-ref normal and a tumor identical to the normal are never filtered as GOR, for every tumor and every reference base |
| AlleleUtil.NonReferenceGainNotFilteredAsGor | test/lib/sniper/TestAlleleUtil.cpp:182-196 | a tumor that gained any non-reference base is never filtered as GOR |
| AlleleUtil.LohAndGorExclusive | test/lib/sniper/TestAlleleUtil.cpp:154-169 | with a non-zero reference, no tumor/normal pair is filtered both as LOH and as GOR; a consequence of the inferred definitions, matching the comment at :154 that a pair which picked up the reference is GOR rather than LOH, while the suite asserts no pair either way |
| AlleleUtilTests.CountAllelesCases | test/lib/sniper/TestAlleleUtil.cpp:23-40 | the suite's fifteen count_alleles values |
| AlleleUtilTests.GenotypeSetDifferenceCases | test/lib/sniper/TestAlleleUtil.cpp:42-47 | the suite's four set-difference values |
| AlleleUtilTests.SingleAlleleOriginalsCases | test/lib/sniper/TestAlleleUtil.cpp:50-55 | is_loh(j, o) is false for o in {A, C, G, T} and j in 1..8 |
| AlleleUtilTests.LohTable | test/lib/sniper/TestAlleleUtil.cpp:57-112 | for all original and mutant in 1..14, is_loh holds exactly for the 36 tabled pairs |
| AlleleUtilTests.NCases | test/lib/sniper/TestAlleleUtil.cpp:114-116 | is_loh(i, A\|C\|G\|T) for every i in 1..14 |
| AlleleUtilTests.ShouldFilterAsLohCases | test/lib/sniper/TestAlleleUtil.cpp:119-132 | the suite's concrete LOH-filter cases with reference A, and the is_loh asymmetry pair |
| AlleleUtilTests.ShouldFilterAsLohAllTumors | test/lib/sniper/TestAlleleUtil.cpp:134-143 | (A, i, A) and (A, i, i) are not filtered as LOH for every i in 1..14 |
| AlleleUtilTests.ShouldFilterAsLohGainCases | test/lib/sniper/TestAlleleUtil.cpp:145-157 | the suite's seven gain cases are not filtered as LOH |
| AlleleUtilTests.ShouldFilterAsGorCases | test/lib/sniper/TestAlleleUtil.cpp:160-169 | the suite's concrete GOR-filter cases with reference A are filtered |
| AlleleUtilTests.ShouldFilterAsGorAllTumors | test/lib/sniper/TestAlleleUtil.cpp:171-180 | (A, i, A) and (A, i, i) are not filtered as GOR for every i in 1..14 |
| AlleleUtilTests.ShouldFilterAsGorHetGainCases | test/lib/sniper/TestAlleleUtil.cpp:182-185 | a het-snp normal picking up a new non-reference allele is not filtered as GOR |
| AlleleUtilTests.ShouldFilterAsGorTriallelic | test/lib/sniper/TestAlleleUtil.cpp:187-190 | (A, A\|T\|C, T\|C) is filtered as GOR, kept as asserted although the suite's author doubts it |
| AlleleUtilTests.ShouldFilterAsGorNonRefGainCases | test/lib/sniper/TestAlleleUtil.cpp:192-196 | a hom-snp normal picking up a new non-reference allele is not filtered as GOR |

## Left out

- The implementation of `sniper/allele_util` is not part of this model. The definitions are
  inferred from the test suite. Where the suite asserts nothing, the model's answer is a
  consequence of the inferred definition, not a claim about the original code.
- `is_loh(15, 15)`: the suite's N loop stops at 14, so nothing pins this case, and the
  contracts leave it open. The inferred definition happens to answer false; a rule that
  makes N an LOH of every non-empty call, itself included, agrees with the suite equally well.
- AlleleUtil.IsLoh: the set characterisation is not promised for N against N (see above).
- AlleleUtil.LohLosesAlleles: not promised for N against N, since under the rule that
  makes N an LOH of itself the count would have to drop from 4 to 4.
- AlleleUtil.ShouldFilterAsLoh: the set characterisation is not promised for an N tumor
  against an N normal, because that answer is `is_loh(15, 15)`.
- AlleleUtil.LohIsStrictOrder: irreflexivity and asymmetry are not promised at N, for the
  same reason.
- AlleleUtil.HomozygousOrIdenticalNotFilteredAsLoh: the identical-calls clause is not
  promised for N, for the same reason; the suite's loop covers 1..14 only.
- A mask of 0 as mutant or tumor is never exercised by the suite. In the model it is never
  an LOH and, with a non-zero reference, never filtered as GOR.
- Masks outside 0..15: the suite passes `int` values (the `int(...)` casts at line 110), but
  `Genotype` is a 4-bit value.
  Wider or negative integers are not modelled.
- A reference base other than A is never exercised by the suite. The model's filters accept
  any reference mask, and the general lemmas are stated for every single reference base.
- The suite compares `is_loh` with 0 and 1 (lines 54 and 116). The model's predicates
  return `bool`.
- The gtest scaffolding (`ASSERT`/`EXPECT` macros, `mkpair`, the `vector`/`find` lookup) is
  not modelled. The lookup becomes membership in the set `LohPairs`.
