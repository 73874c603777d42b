/** The category list that the budget, vendor and task pages keep beside
    their records: seeded with the distinct categories of the loaded
    records, then grown one name at a time by the "add category" form. */
module Categories {
  import opened Lists

  /** `[...new Set(records.map(r => r.category))]`: the categories of the
      records, each once, in order of first occurrence. */
  function InitialCategories(recordCategories: seq<string>): (cats: seq<string>)
    ensures NoDuplicates(cats)
    ensures forall c :: c in cats <==> c in recordCategories
    ensures forall i, j :: 0 <= i < j < |cats| ==>
              IndexOf(recordCategories, cats[i]) < IndexOf(recordCategories, cats[j])
  {
    Distinct(recordCategories)
  }

  /** `addCategory`: a non-empty name not yet in the list is appended;
      an empty or already present name (compared exactly) leaves the list
      as it was. */
  function WithCategory(cats: seq<string>, name: string): (r: seq<string>)
    ensures cats <= r && |r| <= |cats| + 1
    ensures forall c :: c in r <==> c in cats || (c == name && name != "")
    ensures name in cats ==> r == cats
    ensures name == "" ==> r == cats
  {
    if name != "" && name !in cats then cats + [name] else cats
  }

  /** Adding categories never introduces a duplicate. */
  lemma WithCategoryNoDuplicates(cats: seq<string>, name: string)
    requires NoDuplicates(cats)
    ensures NoDuplicates(WithCategory(cats, name))
  {
    var r := WithCategory(cats, name);
    if r != cats {
      forall i, j | 0 <= i < j < |r| ensures r[i] != r[j] {
        if j == |cats| {
          assert r[i] == cats[i];
        }
      }
    }
  }
}
