/** Individuals and nuclear families of a pedigree file, as the association
    test reads them: an identifier, an affection status, and per family an
    optional father, an optional mother and a list of children. */
module Pedigree {
  import opened Wrappers

  /** Affection status of an individual. */
  datatype Condition = Missing | Unaffected | Affected

  datatype Individual = Individual(id: string, condition: Condition)

  /** A nuclear family; an absent parent is a null pointer in the pedigree. */
  datatype Family = Family(father: Option<Individual>, mother: Option<Individual>, children: seq<Individual>)

  /** Number of individuals one family names: its present parents and its children. */
  function FamilySize(family: Family): (n: nat)
    ensures n >= |family.children|
    ensures n <= |family.children| + 2
  {
    (if family.father.Some? then 1 else 0) + (if family.mother.Some? then 1 else 0) + |family.children|
  }

  /** Number of individuals a sequence of families names. */
  function Members(families: seq<Family>): (n: nat)
  {
    if |families| == 0 then 0 else Members(families[..|families| - 1]) + FamilySize(families[|families| - 1])
  }

  /** True when no child of any family has a missing affection status. */
  predicate NoMissingChildren(families: seq<Family>)
  {
    forall f, k :: 0 <= f < |families| && 0 <= k < |families[f].children| ==> families[f].children[k].condition != Missing
  }
}
