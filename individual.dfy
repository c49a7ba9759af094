/** How one genotyped individual feeds the four allele counters of the
    case/control test: affected carriers of allele 1 and allele 2 (A1, A2) and
    unaffected carriers of allele 1 and allele 2 (U1, U2). Allele index 0 is
    "allele 1"; every non-zero index is "allele 2". */
module IndividualCount {
  import opened Pedigree
  import opened Vcf

  datatype Tally = Tally(a1: int, a2: int, u1: int, u2: int)

  const NoCounts := Tally(0, 0, 0, 0)

  function Add(t: Tally, d: Tally): Tally
  {
    Tally(t.a1 + d.a1, t.a2 + d.a2, t.u1 + d.u1, t.u2 + d.u2)
  }

  function Total(t: Tally): int
  {
    t.a1 + t.a2 + t.u1 + t.u2
  }

  predicate NonNegative(t: Tally)
  {
    t.a1 >= 0 && t.a2 >= 0 && t.u1 >= 0 && t.u2 >= 0
  }

  /** Every counter of `t` is at most the same counter of `r`. */
  predicate Grows(t: Tally, r: Tally)
  {
    t.a1 <= r.a1 && t.a2 <= r.a2 && t.u1 <= r.u1 && t.u2 <= r.u2
  }

  /** Alleles counted for `n` individuals: one each on chromosome X, two
      each elsewhere. */
  function AlleleCapacity(chromosome: string, n: int): int
  {
    if IsX(chromosome) then n else 2 * n
  }

  /** Number of the two alleles that are allele 1 (index 0). */
  function ZeroAlleles(p: AllelePair): (n: nat)
    ensures n <= 2
  {
    (if p.allele1 == 0 then 1 else 0) + (if p.allele2 == 0 then 1 else 0)
  }

  /** Copies of allele 1 that one genotype contributes: on an autosome both
      alleles are counted; on chromosome X one allele is counted, and only for
      a genotype homozygous for allele 1. */
  function RefCopies(chromosome: string, p: AllelePair): (n: nat)
    ensures !IsX(chromosome) ==> n == ZeroAlleles(p)
    ensures IsX(chromosome) ==> n <= 1 && (n == 1 <==> ZeroAlleles(p) == 2)
  {
    if !IsX(chromosome) then ZeroAlleles(p)
    else if ZeroAlleles(p) == 2 then 1
    else 0
  }

  /** Copies of allele 2 that one genotype contributes, by the same rule. */
  function AltCopies(chromosome: string, p: AllelePair): (n: nat)
    ensures !IsX(chromosome) ==> n == 2 - ZeroAlleles(p)
    ensures IsX(chromosome) ==> n <= 1 && (n == 1 <==> ZeroAlleles(p) == 0)
  {
    if !IsX(chromosome) then 2 - ZeroAlleles(p)
    else if ZeroAlleles(p) == 0 then 1
    else 0
  }

  /** The increments one individual adds to (A1, A2, U1, U2): its allele
      copies go to the affected counters or to the unaffected counters
      according to its status, and an individual of any other status adds
      nothing. */
  function Contribution(condition: Condition, chromosome: string, p: AllelePair): (r: Tally)
    ensures NonNegative(r)
    ensures condition == Affected ==> r.u1 == 0 && r.u2 == 0
    ensures condition == Unaffected ==> r.a1 == 0 && r.a2 == 0
    ensures condition == Missing ==> r == NoCounts
    ensures IsX(chromosome) ==> Total(r) <= 1
    ensures !IsX(chromosome) && condition != Missing ==> Total(r) == 2
    // homozygous for allele 1, homozygous for allele 2, heterozygous
    ensures p.allele1 == 0 && p.allele2 == 0 ==> r.a2 == 0 && r.u2 == 0
    ensures p.allele1 != 0 && p.allele2 != 0 ==> r.a1 == 0 && r.u1 == 0
    ensures (p.allele1 == 0) != (p.allele2 == 0) ==>
      if IsX(chromosome) then r == NoCounts
      else r.a1 == r.a2 && r.u1 == r.u2
  {
    var ref, alt := RefCopies(chromosome, p), AltCopies(chromosome, p);
    match condition
    case Affected => Tally(ref, alt, 0, 0)
    case Unaffected => Tally(0, 0, ref, alt)
    case Missing => NoCounts
  }

  /** On chromosome X an individual adds one allele exactly when it is not of
      missing status and is homozygous: allele 1 for 0/0, allele 2 when both
      alleles are non-zero. Every other individual adds nothing. */
  lemma ContributionOnX(condition: Condition, chromosome: string, p: AllelePair)
    requires IsX(chromosome)
    ensures var r := Contribution(condition, chromosome, p);
      Total(r) == 1 <==> condition != Missing && (p.allele1 == 0) == (p.allele2 == 0)
  {
    var z := ZeroAlleles(p);
    assert RefCopies(chromosome, p) + AltCopies(chromosome, p) == (if z == 2 || z == 0 then 1 else 0);
  }

  /** One individual's genotype, added into the caller's counters. The body
      follows the source's branches: local increments first, then one
      addition per counter. */
  method CountIndividual(individual: Individual, record: Variant, allele1: int, allele2: int, counters: Tally)
    returns (updated: Tally)
    ensures updated == Add(counters, Contribution(individual.condition, record.chromosome, AllelePair(allele1, allele2)))
  {
    var a1, a2, u1, u2 := 0, 0, 0, 0;
    if IsX(record.chromosome) {
      if individual.condition == Affected {
        if allele1 == 0 && allele2 == 0 {
          a1 := a1 + 1;
        } else if allele1 != 0 && allele2 != 0 {
          a2 := a2 + 1;
        }
      } else if individual.condition == Unaffected {
        if allele1 == 0 && allele2 == 0 {
          u1 := u1 + 1;
        } else if allele1 != 0 && allele2 != 0 {
          u2 := u2 + 1;
        }
      }
    } else {
      if individual.condition == Affected {
        if allele1 == 0 && allele2 == 0 {
          a1 := a1 + 2;
        } else if allele1 != 0 && allele2 != 0 {
          a2 := a2 + 2;
        } else if allele1 != allele2 {
          a1 := a1 + 1;
          a2 := a2 + 1;
        }
      } else if individual.condition == Unaffected {
        if allele1 == 0 && allele2 == 0 {
          u1 := u1 + 2;
        } else if allele1 != 0 && allele2 != 0 {
          u2 := u2 + 2;
        } else if allele1 != allele2 {
          u1 := u1 + 1;
          u2 := u2 + 1;
        }
      }
    }
    updated := Tally(counters.a1 + a1, counters.a2 + a2, counters.u1 + u1, counters.u2 + u2);
  }
}
