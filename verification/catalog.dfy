/** The medicine catalogue outside the inventory handlers: the twelve default
    entries the server seeds into an empty collection, the page's own fallback
    copy of them, the page's load rule, and the store page's search box. */
module Catalog {
  import opened Common
  import opened Text
  import opened Seqs
  import opened Store

  /** The default picture, character for character as the program holds it:
      the UTF-8 bytes of the pill emoji U+1F48A read as Windows-1252. */
  const Pill: string := "\U{F0}\U{178}\U{2019}\U{160}"
  /** The antibiotics' picture: the syringe emoji U+1F489, held the same way. */
  const Syringe: string := "\U{F0}\U{178}\U{2019}\U{2030}"

  /** The seed list, prices in cents. */
  const DefaultMedicines: seq<Medicine> := [
    Medicine(1, "Paracetamol 500mg", 1599, "Pain Relief", 50, Pill),
    Medicine(2, "Ibuprofen 400mg", 1850, "Pain Relief", 45, Pill),
    Medicine(3, "Aspirin 100mg", 1299, "Pain Relief", 60, Pill),
    Medicine(4, "Amoxicillin 500mg", 2599, "Antibiotic", 30, Syringe),
    Medicine(5, "Azithromycin 250mg", 2850, "Antibiotic", 25, Syringe),
    Medicine(6, "Cetirizine 10mg", 899, "Allergy", 70, Pill),
    Medicine(7, "Loratadine 10mg", 950, "Allergy", 65, Pill),
    Medicine(8, "Omeprazole 20mg", 2299, "Digestive", 40, Pill),
    Medicine(9, "Metformin 500mg", 1999, "Diabetes", 35, Pill),
    Medicine(10, "Atorvastatin 20mg", 2499, "Cardiac", 30, Pill),
    Medicine(11, "Vitamin D3 1000IU", 1499, "Vitamins", 80, Pill),
    Medicine(12, "Vitamin C 1000mg", 1199, "Vitamins", 75, Pill)
  ]

  /** The page's own copy of the list, used when the server cannot supply one. */
  const FallbackMedicines: seq<Medicine> := [
    Medicine(1, "Paracetamol 500mg", 1599, "Pain Relief", 50, Pill),
    Medicine(2, "Ibuprofen 400mg", 1850, "Pain Relief", 45, Pill),
    Medicine(3, "Aspirin 100mg", 1299, "Pain Relief", 60, Pill),
    Medicine(4, "Amoxicillin 500mg", 2599, "Antibiotic", 30, Syringe),
    Medicine(5, "Azithromycin 250mg", 2850, "Antibiotic", 25, Syringe),
    Medicine(6, "Cetirizine 10mg", 899, "Allergy", 70, Pill),
    Medicine(7, "Loratadine 10mg", 950, "Allergy", 65, Pill),
    Medicine(8, "Omeprazole 20mg", 2299, "Digestive", 40, Pill),
    Medicine(9, "Metformin 500mg", 1999, "Diabetes", 35, Pill),
    Medicine(10, "Atorvastatin 20mg", 2499, "Cardiac", 30, Pill),
    Medicine(11, "Vitamin D3 1000IU", 1499, "Vitamins", 80, Pill),
    Medicine(12, "Vitamin C 1000mg", 1199, "Vitamins", 75, Pill)
  ]

  /** The seed list is well formed: ids 1 to 12 in order, each in stock. */
  lemma DefaultsWellFormed()
    ensures |DefaultMedicines| == 12
    ensures forall i :: 0 <= i < 12 ==> DefaultMedicines[i].id == i + 1
    ensures UniqueIds(DefaultMedicines)
    ensures StocksAtLeast(DefaultMedicines, 1)
  {
  }

  /** Server start-up: an empty collection is seeded with the defaults; a
      non-empty one is left alone. */
  function InitializeMedicines(meds: seq<Medicine>): (r: seq<Medicine>)
    ensures |r| > 0
    ensures |meds| > 0 ==> r == meds
    ensures |meds| == 0 ==> UniqueIds(r) && StocksAtLeast(r, 1)
  {
    DefaultsWellFormed();
    if |meds| == 0 then DefaultMedicines else meds
  }

  /** The page's catalogue: the server's list when the fetch succeeded with a
      non-empty list (`None` stands for a network failure or a non-success
      status), the defaults otherwise. */
  function LoadMedicines(fetched: Option<seq<Medicine>>): (r: seq<Medicine>)
    ensures |r| > 0
    ensures fetched.Some? && |fetched.value| > 0 ==> r == fetched.value
    ensures fetched.None? || |fetched.value| == 0 ==> r == FallbackMedicines
  {
    match fetched
    case Some(items) => if |items| == 0 then FallbackMedicines else items
    case None => FallbackMedicines
  }

  /** The page shows what a freshly started server lists: the server's own
      list when it is served, and otherwise a fallback equal to the seed list. */
  lemma PageMatchesServer(served: seq<Medicine>)
    ensures LoadMedicines(Some(InitializeMedicines(served))) == InitializeMedicines(served)
    ensures LoadMedicines(None) == InitializeMedicines([])
    ensures LoadMedicines(Some([])) == InitializeMedicines([])
  {
    assert FallbackMedicines == DefaultMedicines;
  }

  /** An entry matches a lower-cased query when its lower-cased name or
      category contains the query. */
  predicate Matches(m: Medicine, lowered: string) {
    Contains(Lower(m.name), lowered) || Contains(Lower(m.category), lowered)
  }

  /** The search box: the query is lower-cased (not trimmed) and the entries
      whose name or category contain it are shown, in catalogue order. */
  function Search(meds: seq<Medicine>, query: string): (r: seq<Medicine>)
    ensures IsSubsequence(r, meds)
    ensures forall m | m in r :: m in meds && Matches(m, Lower(query))
    ensures forall m | m in meds :: m in r <==> Matches(m, Lower(query))
    ensures forall m :: multiset(r)[m] == if Matches(m, Lower(query)) then multiset(meds)[m] else 0
  {
    var lowered := Lower(query);
    var r := Filter(meds, (m: Medicine) => Matches(m, lowered));
    forall m ensures multiset(r)[m] == if Matches(m, lowered) then multiset(meds)[m] else 0 {
      FilterMultiplicity(meds, (m: Medicine) => Matches(m, lowered), m);
    }
    r
  }

  /** An empty query shows the whole catalogue. */
  lemma SearchEmptyShowsAll(meds: seq<Medicine>)
    ensures Search(meds, "") == meds
  {
    forall i | 0 <= i < |meds|
      ensures Matches(meds[i], Lower(""))
    {
      ContainsEmpty(Lower(meds[i].name));
    }
  }

  /** The query's case does not matter. */
  lemma SearchIgnoresCase(meds: seq<Medicine>, query: string)
    ensures Search(meds, query) == Search(meds, Lower(query))
  {
    LowerIdempotent(query);
    FilterCongruent(meds,
      (m: Medicine) => Matches(m, Lower(query)),
      (m: Medicine) => Matches(m, Lower(Lower(query))));
  }

  /** Searching for an entry's whole name finds that entry. */
  lemma SearchFindsByName(meds: seq<Medicine>, m: Medicine)
    requires m in meds
    ensures m in Search(meds, m.name)
  {
    ContainsSelf(Lower(m.name));
  }
}
