/** The parts of a variant record that the association test reads. */
module Vcf {

  /** A variant record: its coordinate, its alleles, its FORMAT column and one
      field string per sample column. */
  datatype Variant = Variant(
    chromosome: string,
    position: int,
    reference: string,
    alternate: string,
    format: string,
    samples: seq<string>)

  /** The two allele indices of a parsed genotype. */
  datatype AllelePair = AllelePair(allele1: int, allele2: int)

  /** Chromosome X is recognised by an exact, case-sensitive match of its name. */
  predicate IsX(chromosome: string)
    ensures IsX(chromosome) <==> chromosome == "X"
  {
    |chromosome| == 1 && chromosome[0] == 'X'
  }
}
