/** The counting loop of the case/control association test: for each variant,
    reset the counters, walk every nuclear family (father, mother, children),
    count every individual whose genotype parses, and append one result per
    variant to the output list. */
module Assoc {
  import opened Wrappers
  import opened Pedigree
  import opened Vcf
  import opened IndividualCount

  /** Collaborators whose code is not part of this model, passed in as
      functions: the column of the GT key in a FORMAT string, the genotype
      parser (None where the source's parser reports failure), and the two
      statistics computed from the final counters. */
  datatype Collaborators = Collaborators(
    gtPosition: string -> int,
    getAlleles: (string, int) -> Option<AllelePair>,
    chiSquare: (int, int, int, int) -> real,
    fisher: (int, int, int, int) -> real)

  /** The test requested by the caller. The enumeration is declared outside
      this model; every value other than the two handled here is OtherTest. */
  datatype TestType = AssociationBasic | Fisher | OtherTest

  /** The six per-variant counters of the loop. */
  datatype Counts = Counts(tally: Tally, numRead: int, numAnalyzed: int)

  const Reset := Counts(NoCounts, 0, 0)

  /** Every sample position the name-to-column map yields is a column of the record. */
  predicate PositionsInRange(sampleIds: map<string, nat>, v: Variant)
  {
    forall id :: id in sampleIds ==> sampleIds[id] < |v.samples|
  }

  // ---------------------------------------------------------------------
  // Specification of one variant's counting, step by step.

  /** An individual whose column is `pos` and who has already been counted as
      read: analysed and counted when its genotype parses, ignored otherwise. */
  function Analyze(c: Counts, individual: Individual, v: Variant, pos: nat, col: Collaborators): Counts
    requires pos < |v.samples|
  {
    match col.getAlleles(v.samples[pos], col.gtPosition(v.format))
    case None => c
    case Some(p) =>
      Counts(Add(c.tally, Contribution(individual.condition, v.chromosome, p)), c.numRead, c.numAnalyzed + 1)
  }

  /** Result of processing a parent, and whether the family's remaining
      members are processed at all. */
  datatype Step = Step(counts: Counts, goOn: bool)

  /** A parent is skipped when absent or of missing status; otherwise it is
      read, and a parent without a sample column ends the family. */
  function ParentStep(c: Counts, parent: Option<Individual>, v: Variant, sampleIds: map<string, nat>, col: Collaborators): Step
    requires PositionsInRange(sampleIds, v)
  {
    if parent.None? || parent.value.condition == Missing then Step(c, true)
    else
      var read := c.(numRead := c.numRead + 1);
      if parent.value.id !in sampleIds then Step(read, false)
      else Step(Analyze(read, parent.value, v, sampleIds[parent.value.id], col), true)
  }

  /** A child with a sample column is read whatever its status; one without is skipped. */
  function ChildStep(c: Counts, child: Individual, v: Variant, sampleIds: map<string, nat>, col: Collaborators): Counts
    requires PositionsInRange(sampleIds, v)
  {
    if child.id !in sampleIds then c
    else Analyze(c.(numRead := c.numRead + 1), child, v, sampleIds[child.id], col)
  }

  function ChildrenCount(c: Counts, children: seq<Individual>, v: Variant, sampleIds: map<string, nat>, col: Collaborators): Counts
    requires PositionsInRange(sampleIds, v)
  {
    if |children| == 0 then c
    else ChildStep(ChildrenCount(c, children[..|children| - 1], v, sampleIds, col), children[|children| - 1], v, sampleIds, col)
  }

  function FamilyCount(c: Counts, family: Family, v: Variant, sampleIds: map<string, nat>, col: Collaborators): Counts
    requires PositionsInRange(sampleIds, v)
  {
    var f := ParentStep(c, family.father, v, sampleIds, col);
    if !f.goOn then f.counts
    else
      var m := ParentStep(f.counts, family.mother, v, sampleIds, col);
      if !m.goOn then m.counts
      else ChildrenCount(m.counts, family.children, v, sampleIds, col)
  }

  function FamiliesCount(c: Counts, families: seq<Family>, v: Variant, sampleIds: map<string, nat>, col: Collaborators): Counts
    requires PositionsInRange(sampleIds, v)
  {
    if |families| == 0 then c
    else FamilyCount(FamiliesCount(c, families[..|families| - 1], v, sampleIds, col), families[|families| - 1], v, sampleIds, col)
  }

  /** The counters of one variant, starting from zero. */
  function VariantCounts(v: Variant, families: seq<Family>, sampleIds: map<string, nat>, col: Collaborators): Counts
    requires PositionsInRange(sampleIds, v)
  {
    FamiliesCount(Reset, families, v, sampleIds, col)
  }

  // ---------------------------------------------------------------------
  // What every step preserves.

  /** Going from `c` to `r`: the four allele counters only grow; at most
      `bound` individuals are read; no more are analysed than read; each
      analysed individual adds at most `ploidy` alleles, and exactly `ploidy`
      when `exact` holds. */
  ghost predicate Advances(c: Counts, r: Counts, bound: nat, chromosome: string, exact: bool)
  {
    && Grows(c.tally, r.tally)
    && c.numRead <= r.numRead <= c.numRead + bound
    && r.numAnalyzed - c.numAnalyzed <= r.numRead - c.numRead
    && c.numAnalyzed <= r.numAnalyzed
    && Total(r.tally) - Total(c.tally) <= AlleleCapacity(chromosome, r.numAnalyzed - c.numAnalyzed)
    && (exact ==> Total(r.tally) - Total(c.tally) == AlleleCapacity(chromosome, r.numAnalyzed - c.numAnalyzed))
  }

  lemma AdvancesTrans(c: Counts, m: Counts, r: Counts, b1: nat, b2: nat, chromosome: string, exact: bool)
    requires Advances(c, m, b1, chromosome, exact) && Advances(m, r, b2, chromosome, exact)
    ensures Advances(c, r, b1 + b2, chromosome, exact)
  {
  }

  lemma AdvancesRefl(c: Counts, chromosome: string, exact: bool)
    ensures Advances(c, c, 0, chromosome, exact)
  {
  }

  /** Whether the allele total is exact for an individual of status `condition`. */
  predicate ExactFor(chromosome: string, condition: Condition)
  {
    !IsX(chromosome) && condition != Missing
  }

  lemma ReadAndAnalyze(c: Counts, individual: Individual, v: Variant, pos: nat, col: Collaborators, exact: bool)
    requires pos < |v.samples|
    requires exact ==> ExactFor(v.chromosome, individual.condition)
    ensures Advances(c, Analyze(c.(numRead := c.numRead + 1), individual, v, pos, col), 1, v.chromosome, exact)
  {
  }

  lemma ParentStepAdvances(c: Counts, parent: Option<Individual>, v: Variant, sampleIds: map<string, nat>, col: Collaborators, exact: bool)
    requires PositionsInRange(sampleIds, v)
    requires exact ==> !IsX(v.chromosome)
    ensures Advances(c, ParentStep(c, parent, v, sampleIds, col).counts, if parent.Some? then 1 else 0, v.chromosome, exact)
  {
  }

  lemma {:induction false} ChildrenCountAdvances(c: Counts, children: seq<Individual>, v: Variant, sampleIds: map<string, nat>, col: Collaborators, exact: bool)
    requires PositionsInRange(sampleIds, v)
    requires exact ==> !IsX(v.chromosome) && forall k :: 0 <= k < |children| ==> children[k].condition != Missing
    ensures Advances(c, ChildrenCount(c, children, v, sampleIds, col), |children|, v.chromosome, exact)
  {
    if |children| == 0 {
      AdvancesRefl(c, v.chromosome, exact);
    } else {
      var init, last := children[..|children| - 1], children[|children| - 1];
      var m := ChildrenCount(c, init, v, sampleIds, col);
      ChildrenCountAdvances(c, init, v, sampleIds, col, exact);
      if last.id in sampleIds {
        ReadAndAnalyze(m, last, v, sampleIds[last.id], col, exact);
      } else {
        AdvancesRefl(m, v.chromosome, exact);
      }
      AdvancesTrans(c, m, ChildStep(m, last, v, sampleIds, col), |init|, 1, v.chromosome, exact);
    }
  }

  lemma FamilyCountAdvances(c: Counts, family: Family, v: Variant, sampleIds: map<string, nat>, col: Collaborators, exact: bool)
    requires PositionsInRange(sampleIds, v)
    requires exact ==> !IsX(v.chromosome) && forall k :: 0 <= k < |family.children| ==> family.children[k].condition != Missing
    ensures Advances(c, FamilyCount(c, family, v, sampleIds, col), FamilySize(family), v.chromosome, exact)
  {
    var chromosome := v.chromosome;
    var fb: nat := if family.father.Some? then 1 else 0;
    var mb: nat := if family.mother.Some? then 1 else 0;
    var f := ParentStep(c, family.father, v, sampleIds, col);
    ParentStepAdvances(c, family.father, v, sampleIds, col, exact);
    if f.goOn {
      var m := ParentStep(f.counts, family.mother, v, sampleIds, col);
      ParentStepAdvances(f.counts, family.mother, v, sampleIds, col, exact);
      AdvancesTrans(c, f.counts, m.counts, fb, mb, chromosome, exact);
      if m.goOn {
        ChildrenCountAdvances(m.counts, family.children, v, sampleIds, col, exact);
        AdvancesTrans(c, m.counts, ChildrenCount(m.counts, family.children, v, sampleIds, col), fb + mb, |family.children|, chromosome, exact);
      }
    }
  }

  lemma {:induction false} FamiliesCountAdvances(c: Counts, families: seq<Family>, v: Variant, sampleIds: map<string, nat>, col: Collaborators, exact: bool)
    requires PositionsInRange(sampleIds, v)
    requires exact ==> !IsX(v.chromosome) && NoMissingChildren(families)
    ensures Advances(c, FamiliesCount(c, families, v, sampleIds, col), Members(families), v.chromosome, exact)
  {
    if |families| == 0 {
      AdvancesRefl(c, v.chromosome, exact);
    } else {
      var init, last := families[..|families| - 1], families[|families| - 1];
      var m := FamiliesCount(c, init, v, sampleIds, col);
      FamiliesCountAdvances(c, init, v, sampleIds, col, exact);
      FamilyCountAdvances(m, last, v, sampleIds, col, exact);
      AdvancesTrans(c, m, FamilyCount(m, last, v, sampleIds, col), Members(init), FamilySize(last), v.chromosome, exact);
    }
  }

  /** What one variant's counters mean: none negative; no more individuals
      analysed than read and no more read than the families name; at most
      `ploidy` alleles per analysed individual, and on an autosome exactly
      two when no child has a missing status. */
  lemma VariantCountsBounds(v: Variant, families: seq<Family>, sampleIds: map<string, nat>, col: Collaborators)
    requires PositionsInRange(sampleIds, v)
    ensures var r := VariantCounts(v, families, sampleIds, col);
      && NonNegative(r.tally)
      && 0 <= r.numAnalyzed <= r.numRead <= Members(families)
      && Total(r.tally) <= AlleleCapacity(v.chromosome, r.numAnalyzed)
      && (!IsX(v.chromosome) && NoMissingChildren(families) ==> Total(r.tally) == 2 * r.numAnalyzed)
  {
    var exact := !IsX(v.chromosome) && NoMissingChildren(families);
    FamiliesCountAdvances(Reset, families, v, sampleIds, col, exact);
    AdvancesFromReset(VariantCounts(v, families, sampleIds, col), Members(families), v.chromosome, exact);
  }

  lemma AdvancesFromReset(r: Counts, bound: nat, chromosome: string, exact: bool)
    requires Advances(Reset, r, bound, chromosome, exact)
    ensures NonNegative(r.tally) && 0 <= r.numAnalyzed <= r.numRead <= bound
    ensures Total(r.tally) <= AlleleCapacity(chromosome, r.numAnalyzed)
    ensures exact ==> Total(r.tally) == AlleleCapacity(chromosome, r.numAnalyzed)
  {
  }

  // ---------------------------------------------------------------------
  // Who is read: a count that needs neither the genotypes nor the chromosome.

  /** A parent that is read: present and not of missing status. */
  function ParentReads(parent: Option<Individual>): nat
  {
    if parent.Some? && parent.value.condition != Missing then 1 else 0
  }

  /** A read parent without a sample column, which ends its family. */
  predicate EndsFamily(parent: Option<Individual>, sampleIds: map<string, nat>)
  {
    parent.Some? && parent.value.condition != Missing && parent.value.id !in sampleIds
  }

  /** Children that have a sample column. */
  function PositionedChildren(children: seq<Individual>, sampleIds: map<string, nat>): nat
  {
    if |children| == 0 then 0
    else PositionedChildren(children[..|children| - 1], sampleIds) + (if children[|children| - 1].id in sampleIds then 1 else 0)
  }

  function FamilyReads(family: Family, sampleIds: map<string, nat>): nat
  {
    if EndsFamily(family.father, sampleIds) then 1
    else if EndsFamily(family.mother, sampleIds) then ParentReads(family.father) + 1
    else ParentReads(family.father) + ParentReads(family.mother) + PositionedChildren(family.children, sampleIds)
  }

  function FamiliesReads(families: seq<Family>, sampleIds: map<string, nat>): nat
  {
    if |families| == 0 then 0
    else FamiliesReads(families[..|families| - 1], sampleIds) + FamilyReads(families[|families| - 1], sampleIds)
  }

  lemma {:induction false} ChildrenReads(c: Counts, children: seq<Individual>, v: Variant, sampleIds: map<string, nat>, col: Collaborators)
    requires PositionsInRange(sampleIds, v)
    ensures ChildrenCount(c, children, v, sampleIds, col).numRead == c.numRead + PositionedChildren(children, sampleIds)
  {
    if |children| > 0 {
      ChildrenReads(c, children[..|children| - 1], v, sampleIds, col);
    }
  }

  lemma {:induction false} FamiliesReadsCounted(c: Counts, families: seq<Family>, v: Variant, sampleIds: map<string, nat>, col: Collaborators)
    requires PositionsInRange(sampleIds, v)
    ensures FamiliesCount(c, families, v, sampleIds, col).numRead == c.numRead + FamiliesReads(families, sampleIds)
  {
    if |families| > 0 {
      var init, last := families[..|families| - 1], families[|families| - 1];
      FamiliesReadsCounted(c, init, v, sampleIds, col);
      var m := FamiliesCount(c, init, v, sampleIds, col);
      var f := ParentStep(m, last.father, v, sampleIds, col);
      if f.goOn {
        var p := ParentStep(f.counts, last.mother, v, sampleIds, col);
        if p.goOn {
          ChildrenReads(p.counts, last.children, v, sampleIds, col);
        }
      }
    }
  }

  /** Number of individuals read for one variant: the same for every variant
      and every genotype parser, since it depends only on the families and on
      which names have a sample column. */
  lemma NumReadIndependentOfGenotypes(v: Variant, families: seq<Family>, sampleIds: map<string, nat>, col: Collaborators)
    requires PositionsInRange(sampleIds, v)
    ensures VariantCounts(v, families, sampleIds, col).numRead == FamiliesReads(families, sampleIds)
  {
    FamiliesReadsCounted(Reset, families, v, sampleIds, col);
  }

  // ---------------------------------------------------------------------
  // The counting loop of one variant.

  /** The block the source writes out twice, for the father and for the
      mother: an absent parent or one of missing status is skipped; any other
      is read, and `goOn` is false exactly when it has no sample column, in
      which case the rest of its family is skipped. */
  method CountParent(record: Variant, parent: Option<Individual>, sampleIds: map<string, nat>, col: Collaborators, gtPosition: int, counts: Counts)
    returns (updated: Counts, goOn: bool)
    requires PositionsInRange(sampleIds, record)
    requires gtPosition == col.gtPosition(record.format)
    ensures Step(updated, goOn) == ParentStep(counts, parent, record, sampleIds, col)
  {
    updated, goOn := counts, true;
    if parent.Some? && parent.value.condition != Missing {
      var tally, numRead, numAnalyzed := counts.tally, counts.numRead + 1, counts.numAnalyzed;
      if parent.value.id !in sampleIds {
        updated, goOn := Counts(tally, numRead, numAnalyzed), false;
        return;
      }
      var pos := sampleIds[parent.value.id];
      var alleles := col.getAlleles(record.samples[pos], gtPosition);
      if alleles.Some? {
        numAnalyzed := numAnalyzed + 1;
        tally := CountIndividual(parent.value, record, alleles.value.allele1, alleles.value.allele2, tally);
      }
      updated := Counts(tally, numRead, numAnalyzed);
    }
  }

  /** The children loop: a child without a sample column is skipped; every
      other child is read, whatever its status, and counted when its genotype
      parses. */
  method CountChildren(record: Variant, children: seq<Individual>, sampleIds: map<string, nat>, col: Collaborators, gtPosition: int, counts: Counts)
    returns (updated: Counts)
    requires PositionsInRange(sampleIds, record)
    requires gtPosition == col.gtPosition(record.format)
    ensures updated == ChildrenCount(counts, children, record, sampleIds, col)
  {
    var tally, numRead, numAnalyzed := counts.tally, counts.numRead, counts.numAnalyzed;
    var k := 0;
    while k < |children|
      invariant 0 <= k <= |children|
      invariant Counts(tally, numRead, numAnalyzed) == ChildrenCount(counts, children[..k], record, sampleIds, col)
    {
      assert children[..k + 1][..k] == children[..k];
      var child := children[k];
      k := k + 1;
      if child.id !in sampleIds {
        continue;
      }
      numRead := numRead + 1;
      var pos := sampleIds[child.id];
      var alleles := col.getAlleles(record.samples[pos], gtPosition);
      if alleles.Some? {
        numAnalyzed := numAnalyzed + 1;
        tally := CountIndividual(child, record, alleles.value.allele1, alleles.value.allele2, tally);
      }
    }
    assert children[..k] == children;
    updated := Counts(tally, numRead, numAnalyzed);
  }

  /** Counts one variant: resets the six counters, then runs the family loop
      over every family in order: father, mother, then the children; a parent
      without a sample column ends its family (`continue`). */
  method CountVariant(record: Variant, families: seq<Family>, sampleIds: map<string, nat>, col: Collaborators)
    returns (counts: Counts)
    requires PositionsInRange(sampleIds, record)
    ensures counts == VariantCounts(record, families, sampleIds, col)
    ensures NonNegative(counts.tally)
    ensures 0 <= counts.numAnalyzed <= counts.numRead <= Members(families)
    ensures Total(counts.tally) <= AlleleCapacity(record.chromosome, counts.numAnalyzed)
    ensures !IsX(record.chromosome) && NoMissingChildren(families) ==> Total(counts.tally) == 2 * counts.numAnalyzed
    ensures counts.numRead == FamiliesReads(families, sampleIds)
  {
    counts := Counts(NoCounts, 0, 0);
    var gtPosition := col.gtPosition(record.format);
    for f := 0 to |families|
      invariant counts == FamiliesCount(Reset, families[..f], record, sampleIds, col)
    {
      assert families[..f + 1][..f] == families[..f];
      ghost var before := counts;
      var family := families[f];
      var goOn;
      counts, goOn := CountParent(record, family.father, sampleIds, col, gtPosition, counts);
      if !goOn {
        continue;
      }
      counts, goOn := CountParent(record, family.mother, sampleIds, col, gtPosition, counts);
      if !goOn {
        continue;
      }
      counts := CountChildren(record, family.children, sampleIds, col, gtPosition, counts);
    }
    assert families[..|families|] == families;
    VariantCountsBounds(record, families, sampleIds, col);
    NumReadIndependentOfGenotypes(record, families, sampleIds, col);
  }

  // ---------------------------------------------------------------------
  // Results and the variant loop.

  /** One output record: the variant's coordinate and alleles, its four
      counters and the statistic of the requested test. */
  datatype AssocResult =
    | BasicResult(chromosome: string, position: int, reference: string, alternate: string,
                  a1: int, a2: int, u1: int, u2: int, chiSquare: real)
    | FisherResult(chromosome: string, position: int, reference: string, alternate: string,
                   a1: int, a2: int, u1: int, u2: int, pValue: real)

  /** The records one variant contributes. The chi-square statistic takes its
      counters in the order (A1, U1, A2, U2), Fisher's test in the order
      (A1, A2, U1, U2), as at the two call sites. */
  function Report(testType: TestType, v: Variant, t: Tally, col: Collaborators): seq<AssocResult>
  {
    match testType
    case AssociationBasic =>
      [BasicResult(v.chromosome, v.position, v.reference, v.alternate, t.a1, t.a2, t.u1, t.u2, col.chiSquare(t.a1, t.u1, t.a2, t.u2))]
    case Fisher =>
      [FisherResult(v.chromosome, v.position, v.reference, v.alternate, t.a1, t.a2, t.u1, t.u2, col.fisher(t.a1, t.a2, t.u1, t.u2))]
    case OtherTest => []
  }

  /** Every positioned sample of the first `n` variants is a column of that variant. */
  predicate InRangeUpTo(sampleIds: map<string, nat>, variants: seq<Variant>, n: nat)
    requires n <= |variants|
  {
    forall j :: 0 <= j < n ==> PositionsInRange(sampleIds, variants[j])
  }

  lemma InRangePrefix(sampleIds: map<string, nat>, variants: seq<Variant>, n: nat, k: nat)
    requires k <= n <= |variants| && InRangeUpTo(sampleIds, variants, n)
    ensures InRangeUpTo(sampleIds, variants, k)
  {
  }

  /** The records a run over the first `n` variants appends, each computed
      from the counters of its own variant alone. */
  function Expected(testType: TestType, variants: seq<Variant>, n: nat, families: seq<Family>, sampleIds: map<string, nat>, col: Collaborators): seq<AssocResult>
    requires n <= |variants| && InRangeUpTo(sampleIds, variants, n)
  {
    if n == 0 then []
    else
      Expected(testType, variants, n - 1, families, sampleIds, col)
        + Report(testType, variants[n - 1], VariantCounts(variants[n - 1], families, sampleIds, col).tally, col)
  }

  /** Number of variants the loop visits: at most `numVariants`, and no more
      than the list holds. */
  function Processed(numVariants: int, available: nat): nat
  {
    if numVariants <= 0 then 0 else if numVariants < available then numVariants else available
  }

  /** `r` is the record the testType makes for variant `v` with counters `c`. */
  ghost predicate Describes(testType: TestType, r: AssocResult, v: Variant, c: Counts, col: Collaborators)
  {
    && r.chromosome == v.chromosome && r.position == v.position
    && r.reference == v.reference && r.alternate == v.alternate
    && r.a1 == c.tally.a1 && r.a2 == c.tally.a2 && r.u1 == c.tally.u1 && r.u2 == c.tally.u2
    && (testType == AssociationBasic ==> r.BasicResult? && r.chiSquare == col.chiSquare(r.a1, r.u1, r.a2, r.u2))
    && (testType == Fisher ==> r.FisherResult? && r.pValue == col.fisher(r.a1, r.a2, r.u1, r.u2))
  }

  /** A run appends exactly one record per visited variant for the chi-square
      and Fisher tests and none otherwise. */
  lemma {:induction false} ExpectedLength(testType: TestType, variants: seq<Variant>, n: nat, families: seq<Family>, sampleIds: map<string, nat>, col: Collaborators)
    requires n <= |variants| && InRangeUpTo(sampleIds, variants, n)
    ensures |Expected(testType, variants, n, families, sampleIds, col)| == if testType == OtherTest then 0 else n
  {
    if n > 0 {
      ExpectedLength(testType, variants, n - 1, families, sampleIds, col);
    }
  }

  /** The i-th record describes the i-th variant with that variant's own
      counters, counted from zero: nothing carries over between variants. */
  lemma {:induction false} ExpectedAt(testType: TestType, variants: seq<Variant>, n: nat, families: seq<Family>, sampleIds: map<string, nat>, col: Collaborators, i: nat)
    requires n <= |variants| && InRangeUpTo(sampleIds, variants, n)
    requires testType != OtherTest && i < n
    ensures |Expected(testType, variants, n, families, sampleIds, col)| == n
    ensures Describes(testType, Expected(testType, variants, n, families, sampleIds, col)[i], variants[i], VariantCounts(variants[i], families, sampleIds, col), col)
  {
    ExpectedLength(testType, variants, n, families, sampleIds, col);
    ExpectedLength(testType, variants, n - 1, families, sampleIds, col);
    if i < n - 1 {
      ExpectedAt(testType, variants, n - 1, families, sampleIds, col, i);
    }
  }

  /** The caller's output list, to which each result is appended in place. */
  class OutputList {
    var items: seq<AssocResult>

    constructor ()
      ensures items == []
    {
      items := [];
    }

    method Insert(item: AssocResult)
      modifies this
      ensures items == old(items) + [item]
    {
      items := items + [item];
    }
  }

  /** Computes the requested statistic from the final counters and appends
      its record to `output`; any other testType appends nothing. */
  method AppendResult(testType: TestType, record: Variant, t: Tally, col: Collaborators, output: OutputList)
    modifies output
    ensures output.items == old(output.items) + Report(testType, record, t, col)
  {
    if testType == AssociationBasic {
      var chiSquare := col.chiSquare(t.a1, t.u1, t.a2, t.u2);
      output.Insert(BasicResult(record.chromosome, record.position, record.reference, record.alternate, t.a1, t.a2, t.u1, t.u2, chiSquare));
    } else if testType == Fisher {
      var pValue := col.fisher(t.a1, t.a2, t.u1, t.u2);
      output.Insert(FisherResult(record.chromosome, record.position, record.reference, record.alternate, t.a1, t.a2, t.u1, t.u2, pValue));
    }
  }

  /** `after` is `before` followed by the records of the first `n` variants. */
  ghost predicate Appended(testType: TestType, before: seq<AssocResult>, after: seq<AssocResult>, variants: seq<Variant>, n: nat,
                           families: seq<Family>, sampleIds: map<string, nat>, col: Collaborators)
  {
    n <= |variants| && InRangeUpTo(sampleIds, variants, n)
    && after == before + Expected(testType, variants, n, families, sampleIds, col)
  }

  /** One pass of the variant loop: count variant `i` from zero, then append
      the requested test's record. The output list, `before` followed by the
      records of the first `i` variants, becomes `before` followed by those of
      the first `i + 1`. */
  method ProcessVariant(testType: TestType, variants: seq<Variant>, i: nat, ghost n: nat, families: seq<Family>, sampleIds: map<string, nat>,
                        col: Collaborators, output: OutputList, ghost before: seq<AssocResult>)
    requires i < n <= |variants| && InRangeUpTo(sampleIds, variants, n)
    requires Appended(testType, before, output.items, variants, i, families, sampleIds, col)
    modifies output
    ensures Appended(testType, before, output.items, variants, i + 1, families, sampleIds, col)
  {
    InRangePrefix(sampleIds, variants, n, i + 1);
    var record := variants[i];
    var counts := CountVariant(record, families, sampleIds, col);
    AppendResult(testType, record, counts.tally, col, output);
  }

  /** The variant loop: visits at most `numVariants` variants, stopping early
      at the end of the list; resets and recounts for each, and appends the
      requested test's record to `output`. */
  method AssocTest(testType: TestType, families: seq<Family>, variants: seq<Variant>, numVariants: int,
                   sampleIds: map<string, nat>, col: Collaborators, output: OutputList)
    requires InRangeUpTo(sampleIds, variants, Processed(numVariants, |variants|))
    modifies output
    ensures output.items == old(output.items) + Expected(testType, variants, Processed(numVariants, |variants|), families, sampleIds, col)
    ensures |output.items| == |old(output.items)| + if testType == OtherTest then 0 else Processed(numVariants, |variants|)
  {
    ghost var n := Processed(numVariants, |variants|);
    var i := 0;
    while i < numVariants && i < |variants|
      invariant 0 <= i <= n
      invariant Appended(testType, old(output.items), output.items, variants, i, families, sampleIds, col)
      decreases n - i
    {
      ProcessVariant(testType, variants, i, n, families, sampleIds, col, output, old(output.items));
      i := i + 1;
    }
    ExpectedLength(testType, variants, n, families, sampleIds, col);
  }
}
