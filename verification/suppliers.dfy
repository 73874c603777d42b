/** The supplier list: three filters (minimum price, minimum rating and
    area) recomputed whenever one of them or the list changes. */
module Suppliers {
  import opened Lists

  datatype Supplier = Supplier(id: string, name: string, category: string, price: int, rating: int, area: string)

  /** The three filter inputs; their initial values are 0, 0 and "". */
  datatype SupplierFilter = SupplierFilter(minPrice: int, minRating: int, area: string)

  const InitialFilter := SupplierFilter(0, 0, "")

  /** The price filter is a minimum: a supplier is kept when it costs at
      least that much, is rated at least that high, and is in the chosen
      area unless the area is empty. */
  predicate SupplierMatches(s: Supplier, f: SupplierFilter) {
    s.price >= f.minPrice && s.rating >= f.minRating && (f.area == "" || s.area == f.area)
  }

  /** The list the filter effect stores. */
  function FilteredSuppliers(ss: seq<Supplier>, f: SupplierFilter): (r: seq<Supplier>)
    ensures forall s :: s in r <==> s in ss && SupplierMatches(s, f)
    ensures IsSubsequence(r, ss)
    ensures forall s :: multiset(r)[s] == if SupplierMatches(s, f) then multiset(ss)[s] else 0
  {
    FilterCounts(ss, (s: Supplier) => SupplierMatches(s, f));
    FilterIsSubsequence(ss, (s: Supplier) => SupplierMatches(s, f));
    Filter(ss, (s: Supplier) => SupplierMatches(s, f))
  }

  /** With the initial filters every supplier with a non-negative price and
      rating is kept. */
  lemma InitialFilterKeepsAll(ss: seq<Supplier>)
    requires forall s :: s in ss ==> s.price >= 0 && s.rating >= 0
    ensures FilteredSuppliers(ss, InitialFilter) == ss
  {
    FilterKeepsAll(ss, (s: Supplier) => SupplierMatches(s, InitialFilter));
  }

  /** Raising the price or the rating threshold, with the area fixed,
      keeps a subsequence of what the lower thresholds kept. */
  lemma RaisingThresholdsNarrows(ss: seq<Supplier>, low: SupplierFilter, high: SupplierFilter)
    requires low.minPrice <= high.minPrice && low.minRating <= high.minRating && low.area == high.area
    ensures IsSubsequence(FilteredSuppliers(ss, high), FilteredSuppliers(ss, low))
  {
    FilterWeaker(ss, (s: Supplier) => SupplierMatches(s, high), (s: Supplier) => SupplierMatches(s, low));
  }

  /** Entering a price drops the cheaper suppliers, not the dearer ones. */
  lemma PriceIsAMinimum(ss: seq<Supplier>, f: SupplierFilter, s: Supplier)
    requires s in ss && s.price < f.minPrice
    ensures s !in FilteredSuppliers(ss, f)
  {
  }
}
