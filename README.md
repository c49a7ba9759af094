# Allele counting of the hpg-variant case/control association test

This project models the counting half of the basic case/control association
test of hpg-variant (`gwas/assoc.c`), with proofs. For each variant the test
resets six counters. It then walks every nuclear family of the pedigree:
father, mother, then the children. A parent that is absent or of missing
status is skipped without a lookup. Every other individual is looked up in
the map from sample name to sample column, unless an earlier parent of the
same family had no column. Every individual looked up whose genotype parses
is analysed and adds its alleles to the counters of its status. A child of
missing status adds nothing; a parent of missing status was already skipped.
On X a homozygote adds one allele and a heterozygote adds nothing. The four
allele counters are:

- A1, A2: allele-1 and allele-2 counts among affected individuals (two per
  individual on an autosome, one per homozygote on X);
- U1, U2: the same among unaffected individuals.

Allele 1 is allele index 0; every non-zero index is allele 2. Two more
counters track individuals read (`num_read`) and individuals analysed
(`num_analyzed`). When the chi-square or Fisher test was requested, one
result record per variant is appended to the caller's output list.

Modules, one per concern:

- `Wrappers` (`wrappers.dfy`): the `Option` type. It stands for absent parents and for genotypes that fail to parse.
- `Pedigree` (`pedigree.dfy`): affection status, individuals, nuclear families, family sizes.
- `Vcf` (`vcf.dfy`): the fields of a variant record that the test reads, and the allele pair of a genotype. `IsX` is the exact, case-sensitive match against `"X"` that the source does with `strcmp`.
- `IndividualCount` (`individual.dfy`): `assoc_count_individual`.
  - `Contribution` is a reference definition built on counting alleles. It counts the zero and non-zero alleles on an autosome, and one allele for a homozygous genotype on X.
  - `CountIndividual` keeps the source's own branch structure, including a final `allele1 != allele2` test that can never be false by the time it runs. It is proved equal to the reference definition.
- `Assoc` (`assoc.dfy`): the loops of `assoc_test`.
  - Specification functions, one per step: `Analyze`, `ParentStep`, `ChildStep`, `ChildrenCount`, `FamilyCount`, `FamiliesCount`, `VariantCounts`, `Report`, `Expected`.
  - The imperative methods are proved against them: `CountParent`, `CountChildren`, `CountVariant`, `AppendResult`, `ProcessVariant`, and `AssocTest` over the `OutputList` class.
  - Lemmas prove the counters' bounds and monotonicity, a count of who is read that does not depend on the genotypes, and the shape of the output.

The source writes the parent block out twice, once for the father and once
for the mother. The model has one method, `CountParent`, called for each
parent. Its `goOn` result is the source's `continue` of the family loop.
`CountVariant` issues that `continue` as the source does, so a read parent
who has no sample column ends the rest of its family. After the father,
neither the mother nor the children are read. After the mother, the children
are not read; the father has already been read and possibly analysed. The
model keeps this behaviour as written.

## Model

| member | source | states |
|---|---|---|
| `Vcf.IsX` | gwas/assoc.c:154 | A chromosome is X exactly when its name is the one-character string `"X"`, the exact match that `strcmp` makes. |
| `IndividualCount.Contribution` | gwas/assoc.c:151-187 | The four increments are never negative. An affected individual never touches U1/U2, an unaffected one never touches A1/A2, and any other status adds nothing. On an autosome a non-missing individual adds exactly 2. On X it adds at most 1. Homozygous for allele 1 adds nothing to A2/U2; homozygous for allele 2 adds nothing to A1/U1. A heterozygote adds nothing on X and one copy of each allele on an autosome. |
| `IndividualCount.ContributionOnX` | gwas/assoc.c:154-167 | On X an individual adds exactly one allele if and only if it is not of missing status and is homozygous. Together with `Contribution`'s contract this fixes the X result: 0/0 adds one to A1 or U1, two non-zero alleles add one to A2 or U2, and anything else adds nothing. |
| `IndividualCount.CountIndividual` | gwas/assoc.c:149-194 | The source's branches add exactly the reference contribution to the caller's counters. That contribution is never negative, so the four counters only grow. |
| `Assoc.CountParent` | gwas/assoc.c:49-85 | One parent's block. An absent parent or one of missing status changes nothing and the family goes on. Any other parent is read. A read parent with no sample column stops the family with nothing analysed. Otherwise the parent is analysed and counted exactly when its genotype parses. |
| `Assoc.CountChildren` | gwas/assoc.c:87-108 | The children loop. A child with no sample column is skipped without being read. Every other child is read whatever its status, and is analysed and counted when its genotype parses. |
| `Assoc.CountVariant` | gwas/assoc.c:28-109 | The six counters come out equal to the family-by-family specification, starting from zero. None is negative. num_analyzed <= num_read <= the number of individuals the families name. The allele total is at most the ploidy times num_analyzed, and exactly twice num_analyzed on an autosome when no child has missing status. num_read equals the genotype-independent count of readers. |
| `Assoc.ParentStepAdvances` | gwas/assoc.c:49-85 | Processing a parent reads at most one individual and analyses at most as many as it reads. The counters only grow, by at most the ploidy per analysed individual. |
| `Assoc.ChildrenCountAdvances` | gwas/assoc.c:87-108 | Counting the children reads at most one per child and analyses no more than it reads. The counters only grow, by at most the ploidy per analysed child, and by exactly the ploidy on an autosome when no child has missing status. |
| `Assoc.FamilyCountAdvances` | gwas/assoc.c:40-109 | The same monotonicity and bounds for one whole family, reading at most its present parents and its children. |
| `Assoc.FamiliesCountAdvances` | gwas/assoc.c:40-109 | The same for the whole family loop. At most the total number of named individuals is read. |
| `Assoc.VariantCountsBounds` | gwas/assoc.c:28-109 | After the reset, the counters of one variant are all non-negative. 0 <= num_analyzed <= num_read <= the number of individuals named, and the allele total is bounded (exact on an autosome without children of missing status). |
| `Assoc.ChildrenReads` | gwas/assoc.c:90-99 | Children add to num_read exactly the number of children that have a sample column. |
| `Assoc.FamiliesReadsCounted` | gwas/assoc.c:40-109 | The family loop adds to num_read exactly the reference count of readers. That count does not depend on genotypes or chromosome: each read parent counts one, a read parent without a column ends the family, and each positioned child counts one. |
| `Assoc.NumReadIndependentOfGenotypes` | gwas/assoc.c:50-99 | Every variant's num_read equals that genotype-independent count, so it is the same for every variant. |
| `Assoc.ExpectedLength` | gwas/assoc.c:118-133 | Exactly one record per visited variant for the chi-square and Fisher tests, and none for any other test type. |
| `Assoc.ExpectedAt` | gwas/assoc.c:28-133 | Record i carries variant i's coordinate and alleles, and that variant's own counters counted from zero. Nothing carries over from earlier variants. The statistic is the chi-square of (A1, U1, A2, U2) or the Fisher test of (A1, A2, U1, U2). |
| `Assoc.OutputList.Insert` | gwas/assoc.c:123-132 | Inserting an item appends it at the tail of the output list and changes nothing else in the list. |
| `Assoc.AppendResult` | gwas/assoc.c:118-133 | Appends the requested test's record to the output list, or nothing for any other test type. |
| `Assoc.ProcessVariant` | gwas/assoc.c:28-133 | One pass of the variant loop. If the output list holds its earlier contents followed by the records of the first i variants, it afterwards holds them followed by the records of the first i + 1. The new record is the one the requested test makes from variant i's own counters, counted from zero; any other test type appends nothing. |
| `Assoc.AssocTest` | gwas/assoc.c:3-146 | Visits min(num_variants, list length) variants, none when num_variants <= 0. The output list becomes its old contents followed by exactly the expected records, so its length grows by the number of visited variants for the two tests and by 0 otherwise. |

## Left out

- `assoc_basic_test` and `assoc_fisher_test` compute floating-point statistics in code that is not part of this model. They are the uninterpreted fields `chiSquare` and `fisher` of `Collaborators`, and their `double` results are `real` values. Fisher's extra `opt_input` argument is folded into that function.
- `get_alleles` and `get_field_position_in_format("GT", …)` are library code that is not part of this model. They are the fields `getAlleles` (None for a failed parse) and `gtPosition` of `Collaborators`.
- `list_to_array` and the cprops hashtable, list and iterator API are library code too. The variant list is a `seq<Variant>`, the families are a `seq<Family>` in the order of the hashtable's keys, and children are a `seq`. `sample_ids` is a `map<string, nat>`.
- `AssocTest` requires every position in `sample_ids` to be a column of each visited variant. The source indexes `sample_data` with no bounds check, so this is what it assumes of its callers.
- The enumeration of test types and `cp_hashtable_count(sample_ids)` are not modelled. The enumeration's definition is not part of this model, so every value other than `ASSOCIATION_BASIC` and `FISHER` is `OtherTest`. The sample count is computed but never used.
- `list_insert_item` is library code that is not part of this model. `OutputList.Insert` assumes it appends at the tail. `AssocTest` also assumes nothing else writes to the output list during the call. The caller runs under OpenMP, so other threads may insert into the same list and interleave their records with these; the model does not capture that.
- Logging, `omp_get_thread_num` and the thread tag of the output list items are concurrency and I/O plumbing.
- `strdup` and `free` only manage memory.
- The counters are unbounded integers. The source's 32-bit `int` can overflow with more than 2^30 family-member readings in one variant: A1 grows by 2 for each affected 0/0 reading on an autosome, and an individual named in several families is read once per family. This wrap-around is not modelled.
- `src/merge/merge.h` and `effect/effect.h` contain only declarations (option structures, an enumeration, prototypes). There are no bodies to model.
- `src/gwas/assoc/main_assoc.c` is command-line and configuration-file plumbing. It sets the test type to `CHI_SQUARE`, not `ASSOCIATION_BASIC`. Whether the two names denote the same value is decided in a header that is not part of this model.
