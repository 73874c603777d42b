/** The vendor manager page: a list of vendors with a category list and a
    filter over category and minimum star rating. */
module VendorsPage {
  import opened Lists
  import opened Categories

  datatype Vendor = Vendor(
    id: string,
    name: string,
    category: string,
    phone: string,
    email: string,
    website: string,
    price: int,
    rating: int,
    notes: string)

  /** The new-vendor form; a field the user never touched is "" or 0. */
  datatype VendorDraft = VendorDraft(
    name: string, category: string, phone: string, email: string,
    website: string, price: int, notes: string)

  const EmptyVendorDraft := VendorDraft("", "", "", "", "", 0, "")

  /** The vendor `addVendor` builds from the form: the fresh id and a
      rating of 0. */
  function DraftToVendor(d: VendorDraft, id: string): Vendor {
    Vendor(id, d.name, d.category, d.phone, d.email, d.website, d.price, 0, d.notes)
  }

  function HasIdOf(u: Vendor): Vendor -> bool {
    (v: Vendor) => v.id == u.id
  }

  function Category(v: Vendor): string { v.category }

  /** The category select and the minimum-rating select; "" and 0 mean no
      filter. */
  datatype VendorFilter = VendorFilter(category: string, rating: int)

  /** A rating threshold of 0 is falsy and lets everything through;
      any other threshold keeps the vendors rated at least that much. */
  predicate VendorMatches(v: Vendor, f: VendorFilter) {
    (f.category == "" || v.category == f.category)
    && (f.rating == 0 || v.rating >= f.rating)
  }

  /** `filteredVendors`. */
  function FilteredVendors(vs: seq<Vendor>, f: VendorFilter): (r: seq<Vendor>)
    ensures forall v :: v in r <==> v in vs && VendorMatches(v, f)
    ensures IsSubsequence(r, vs)
    ensures forall v :: multiset(r)[v] == if VendorMatches(v, f) then multiset(vs)[v] else 0
  {
    FilterCounts(vs, (v: Vendor) => VendorMatches(v, f));
    FilterIsSubsequence(vs, (v: Vendor) => VendorMatches(v, f));
    Filter(vs, (v: Vendor) => VendorMatches(v, f))
  }

  /** The initial filter shows every vendor. */
  lemma InitialFilterShowsAllVendors(vs: seq<Vendor>)
    ensures FilteredVendors(vs, VendorFilter("", 0)) == vs
  {
    FilterKeepsAll(vs, (v: Vendor) => VendorMatches(v, VendorFilter("", 0)));
  }

  /** Raising a non-negative rating threshold keeps a subsequence of what
      the lower threshold showed. */
  lemma RaisingRatingNarrows(vs: seq<Vendor>, category: string, low: int, high: int)
    requires 0 <= low <= high
    ensures IsSubsequence(FilteredVendors(vs, VendorFilter(category, high)),
                          FilteredVendors(vs, VendorFilter(category, low)))
  {
    FilterWeaker(vs, (v: Vendor) => VendorMatches(v, VendorFilter(category, high)),
                     (v: Vendor) => VendorMatches(v, VendorFilter(category, low)));
  }

  /** As written, the category entry "all" is compared like any other
      category, so it keeps only the vendors whose category is literally
      "all". */
  lemma AllCategoryIsLiteral(vs: seq<Vendor>, rating: int)
    ensures forall v :: v in FilteredVendors(vs, VendorFilter("all", rating)) <==>
              v in vs && v.category == "all" && (rating == 0 || v.rating >= rating)
  {
  }

  function IntendedFilteredVendors(vs: seq<Vendor>, f: VendorFilter): (r: seq<Vendor>)
    ensures forall v :: v in r <==> v in vs && VendorMatches(v, VendorFilter(Unrestricted(f.category), f.rating))
    ensures IsSubsequence(r, vs)
    ensures forall v :: multiset(r)[v] == if VendorMatches(v, VendorFilter(Unrestricted(f.category), f.rating)) then multiset(vs)[v] else 0
  {
    FilteredVendors(vs, VendorFilter(Unrestricted(f.category), f.rating))
  }

  /** With the intended reading, "all" with no rating threshold shows every
      vendor. */
  lemma IntendedAllShowsAllVendors(vs: seq<Vendor>)
    ensures IntendedFilteredVendors(vs, VendorFilter("all", 0)) == vs
  {
    InitialFilterShowsAllVendors(vs);
  }

  /** The vendor manager's state. */
  class VendorManagement {
    var vendors: seq<Vendor>
    var newVendor: VendorDraft
    var categories: seq<string>
    var newCategory: string
    var filter: VendorFilter

    constructor ()
      ensures vendors == [] && newVendor == EmptyVendorDraft
      ensures categories == [] && newCategory == "" && filter == VendorFilter("", 0)
    {
      vendors := [];
      newVendor := EmptyVendorDraft;
      categories := [];
      newCategory := "";
      filter := VendorFilter("", 0);
    }

    /** The load effect, with the fetched vendors as a parameter: the
        categories become the distinct vendor categories. */
    method Load(data: seq<Vendor>)
      modifies this`vendors, this`categories
      ensures vendors == data
      ensures categories == InitialCategories(Map(data, Category))
    {
      vendors := data;
      categories := InitialCategories(Map(data, Category));
    }

    /** `addVendor`: one vendor with rating 0 is appended from the form,
        which is then cleared; nothing is validated. */
    method AddVendor(id: string)
      modifies this`vendors, this`newVendor
      ensures vendors == old(vendors) + [DraftToVendor(old(newVendor), id)]
      ensures newVendor == EmptyVendorDraft
    {
      vendors := vendors + [DraftToVendor(newVendor, id)];
      newVendor := EmptyVendorDraft;
    }

    /** `updateVendor`: every vendor with the edited vendor's id is
        replaced by it; length and order are kept. */
    method UpdateVendor(updated: Vendor)
      modifies this`vendors
      ensures vendors == ReplaceWhere(old(vendors), HasIdOf(updated), updated)
    {
      vendors := ReplaceWhere(vendors, HasIdOf(updated), updated);
    }

    /** `addCategory`: the form is cleared only when the name was added. */
    method AddCategory()
      modifies this`categories, this`newCategory
      ensures categories == WithCategory(old(categories), old(newCategory))
      ensures newCategory == if categories == old(categories) then old(newCategory) else ""
    {
      if newCategory != "" && newCategory !in categories {
        categories := categories + [newCategory];
        newCategory := "";
      }
    }
  }
}
