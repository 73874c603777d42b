/** The guest list of the main planner view: a list of guests that the
    handlers add to, edit, delete from and merge a spreadsheet into, and
    the views derived from it (search/relation filter, RSVP head counts,
    spreadsheet export). */
module GuestList {
  import opened Lists
  import Text

  // Relation and confirmation values, as the forms and the import store them.
  const Family := "משפחה"
  const Friends := "חברים"
  const Work := "עבודה"
  const Yes := "כן"
  const No := "לא"
  const Maybe := "אולי"

  datatype Guest = Guest(
    id: string,
    fullName: string,
    phoneNumber: string,
    relation: string,
    invitedCount: int,
    confirmed: string,
    specialNotes: string)

  /** One spreadsheet row as the sheet reader yields it: one cell per
      column header, `None` where the cell is empty. The six fields are the
      six columns, in export order: "שם מלא" (full name), "מספר טלפון"
      (phone number), "קשר (משפחה/חברים/עבודה)" (relation), "כמות מוזמנים"
      (invited count), "אישור הגעה (כן/לא/אולי)" (confirmation) and
      "הערות מיוחדות" (special notes). */
  datatype Row = Row(
    fullName: Option<string>,
    phoneNumber: Option<string>,
    relation: Option<string>,
    invitedCount: Option<int>,
    confirmed: Option<string>,
    specialNotes: Option<string>)

  /** `cell || fallback` on a text cell: an absent or empty cell gives the fallback. */
  function TextOr(cell: Option<string>, fallback: string): string {
    if cell.Some? && cell.value != "" then cell.value else fallback
  }

  /** `cell || fallback` on a number cell: an absent or zero cell gives the fallback. */
  function CountOr(cell: Option<int>, fallback: int): int {
    if cell.Some? && cell.value != 0 then cell.value else fallback
  }

  /** The guest an imported row becomes, with the freshly generated `id`. */
  function RowToGuest(row: Row, id: string): (g: Guest)
    ensures g.id == id
    ensures g.relation != "" && g.invitedCount != 0 && g.confirmed != ""
    ensures row.fullName.Some? ==> g.fullName == row.fullName.value
    ensures row.phoneNumber.Some? ==> g.phoneNumber == row.phoneNumber.value
    ensures row.specialNotes.Some? ==> g.specialNotes == row.specialNotes.value
  {
    Guest(
      id,
      TextOr(row.fullName, ""),
      TextOr(row.phoneNumber, ""),
      TextOr(row.relation, Friends),
      CountOr(row.invitedCount, 1),
      TextOr(row.confirmed, Maybe),
      TextOr(row.specialNotes, ""))
  }

  /** The row a guest is exported as: every column filled. */
  function GuestToRow(g: Guest): (row: Row)
    ensures row.fullName.Some? && row.phoneNumber.Some? && row.relation.Some?
    ensures row.invitedCount.Some? && row.confirmed.Some? && row.specialNotes.Some?
    ensures RowToGuest(row, g.id).fullName == g.fullName
    ensures RowToGuest(row, g.id).phoneNumber == g.phoneNumber
    ensures RowToGuest(row, g.id).specialNotes == g.specialNotes
  {
    Row(Some(g.fullName), Some(g.phoneNumber), Some(g.relation),
        Some(g.invitedCount), Some(g.confirmed), Some(g.specialNotes))
  }

  /** The export: one row per guest, in list order. */
  function ExportRows(gs: seq<Guest>): (rows: seq<Row>)
    ensures |rows| == |gs|
    ensures forall i :: 0 <= i < |gs| ==> rows[i] == GuestToRow(gs[i])
  {
    if gs == [] then [] else [GuestToRow(gs[0])] + ExportRows(gs[1..])
  }

  /** The guests an import produces before merging, one per row, each with
      the id generated for it. */
  function RowsToGuests(rows: seq<Row>, ids: seq<string>): (gs: seq<Guest>)
    requires |ids| == |rows|
    ensures |gs| == |rows|
    ensures forall i :: 0 <= i < |rows| ==> gs[i] == RowToGuest(rows[i], ids[i])
  {
    if rows == [] then [] else [RowToGuest(rows[0], ids[0])] + RowsToGuests(rows[1..], ids[1..])
  }

  /** An empty row imports as a guest with every default. */
  lemma ImportDefaults(id: string)
    ensures RowToGuest(Row(None, None, None, None, None, None), id)
            == Guest(id, "", "", Friends, 1, Maybe, "")
  {
  }

  /** Importing an exported row gives back the guest under the new id,
      unless a field was one that the import replaces by its default. */
  lemma ExportedRowImportsBack(g: Guest, id: string)
    requires g.invitedCount != 0 && g.relation != "" && g.confirmed != ""
    ensures RowToGuest(GuestToRow(g), id) == g.(id := id)
  {
  }

  /** The merge key: the lower-cased full name and the exact phone number. */
  function Key(g: Guest): (string, string) {
    (Text.Lower(g.fullName), g.phoneNumber)
  }

  /** The merge keys present in a list. */
  ghost function Keys(gs: seq<Guest>): set<(string, string)> {
    set g | g in gs :: Key(g)
  }

  /** No two guests share a merge key. */
  ghost predicate DistinctKeys(gs: seq<Guest>) {
    forall i, j :: 0 <= i < j < |gs| ==> Key(gs[i]) != Key(gs[j])
  }

  /** `findIndex` on the merge key: the first guest with `g`'s key. */
  function FindByKey(gs: seq<Guest>, g: Guest): (r: Option<nat>)
    ensures r.Some? ==> r.value < |gs| && Key(gs[r.value]) == Key(g)
    ensures r.Some? ==> forall j :: 0 <= j < r.value ==> Key(gs[j]) != Key(g)
    ensures r.None? ==> forall j :: 0 <= j < |gs| ==> Key(gs[j]) != Key(g)
  {
    if gs == [] then None
    else if Key(gs[0]) == Key(g) then Some(0)
    else match FindByKey(gs[1..], g)
      case None => None
      case Some(i) => Some(i + 1)
  }

  /** One step of the import: replace the first guest with the same key,
      or append. */
  function Upsert(gs: seq<Guest>, g: Guest): (r: seq<Guest>)
    ensures g in r
    ensures forall h :: h in r ==> h == g || h in gs
    ensures Keys(r) == Keys(gs) + {Key(g)}
    ensures |r| == if Key(g) in Keys(gs) then |gs| else |gs| + 1
    ensures DistinctKeys(gs) ==> DistinctKeys(r)
  {
    match FindByKey(gs, g)
    case None =>
      assert Key(g) !in Keys(gs);
      gs + [g]
    case Some(i) =>
      assert gs[i := g][i] == g;
      assert forall h :: h in gs[i := g] ==> h == g || h in gs;
      assert Keys(gs[i := g]) == Keys(gs) by {
        forall k | k in Keys(gs) ensures k in Keys(gs[i := g]) {
          var h :| h in gs && Key(h) == k;
          var j :| 0 <= j < |gs| && gs[j] == h;
          assert Key(gs[i := g][j]) == k;
        }
      }
      gs[i := g]
  }

  /** The import merge: the new guests are upserted in order into the
      growing list. */
  function MergeAll(gs: seq<Guest>, news: seq<Guest>): (r: seq<Guest>)
    ensures Keys(r) == Keys(gs) + Keys(news)
    ensures |gs| <= |r| <= |gs| + |news|
    ensures DistinctKeys(gs) ==> DistinctKeys(r)
  {
    if news == [] then gs
    else
      var init := news[..|news| - 1];
      assert news == init + [news[|news| - 1]];
      assert Keys(news) == Keys(init) + {Key(news[|news| - 1])};
      Upsert(MergeAll(gs, init), news[|news| - 1])
  }

  /** `Upsert` appends when `findIndex` finds nothing and replaces at the
      index it finds. */
  lemma UpsertByIndex(gs: seq<Guest>, g: Guest)
    ensures FindByKey(gs, g).None? ==> Upsert(gs, g) == gs + [g]
    ensures FindByKey(gs, g).Some? ==> Upsert(gs, g) == gs[FindByKey(gs, g).value := g]
  {
  }

  /** A non-empty import upserts its last guest into the merge of the others. */
  lemma MergeAllStep(gs: seq<Guest>, news: seq<Guest>)
    requires news != []
    ensures MergeAll(gs, news) == Upsert(MergeAll(gs, news[..|news| - 1]), news[|news| - 1])
  {
  }

  /** `FindByKey` finds exactly the first guest with the key. */
  lemma FindByKeyFirst(gs: seq<Guest>, g: Guest, i: nat)
    requires i < |gs| && Key(gs[i]) == Key(g)
    requires forall j :: 0 <= j < i ==> Key(gs[j]) != Key(g)
    ensures FindByKey(gs, g) == Some(i)
  {
  }

  /** A row whose key matches a guest replaces the first such guest at
      its index; the length and every other guest stay. */
  lemma UpsertReplacesFirstMatch(gs: seq<Guest>, g: Guest, i: nat)
    requires i < |gs| && Key(gs[i]) == Key(g)
    requires forall j :: 0 <= j < i ==> Key(gs[j]) != Key(g)
    ensures Upsert(gs, g) == gs[i := g]
  {
    FindByKeyFirst(gs, g, i);
  }

  /** A row whose key matches no guest is appended at the end. */
  lemma UpsertAppendsNewKey(gs: seq<Guest>, g: Guest)
    requires forall j :: 0 <= j < |gs| ==> Key(gs[j]) != Key(g)
    ensures Upsert(gs, g) == gs + [g]
  {
  }

  /** Two rows with the same key in one import collapse into one record
      that carries the later row's fields. */
  lemma UpsertSameKeyTwice(gs: seq<Guest>, a: Guest, b: Guest)
    requires Key(a) == Key(b)
    ensures Upsert(Upsert(gs, a), b) == Upsert(gs, b)
  {
    var ga := Upsert(gs, a);
    match FindByKey(gs, a)
    case None =>
      assert ga == gs + [a];
      FindByKeyFirst(ga, b, |gs|);
      assert ga[|gs| := b] == gs + [b];
      UpsertAppendsNewKey(gs, b);
    case Some(i) =>
      assert ga == gs[i := a];
      FindByKeyFirst(ga, b, i);
      UpsertReplacesFirstMatch(gs, b, i);
      assert ga[i := b] == gs[i := b];
  }

  /** The list after the first `k` exported rows of `gs` were re-imported. */
  function Reimported(gs: seq<Guest>, ids: seq<string>, k: nat): (r: seq<Guest>)
    requires |ids| == |gs| && k <= |gs|
    ensures |r| == |gs|
  {
    seq(|gs|, i requires 0 <= i < |gs| => if i < k then gs[i].(id := ids[i]) else gs[i])
  }

  /** Exporting the list and importing the file into the same list, when
      the keys are distinct and no field is one the import would default,
      keeps the length and every guest's fields, the ids becoming the
      freshly generated ones. */
  lemma {:induction false} ExportImportRoundTrip(gs: seq<Guest>, ids: seq<string>)
    requires |ids| == |gs|
    requires DistinctKeys(gs)
    requires forall g :: g in gs ==> g.invitedCount != 0 && g.relation != "" && g.confirmed != ""
    ensures |MergeAll(gs, RowsToGuests(ExportRows(gs), ids))| == |gs|
    ensures forall i :: 0 <= i < |gs| ==>
              MergeAll(gs, RowsToGuests(ExportRows(gs), ids))[i] == gs[i].(id := ids[i])
  {
    var news := RowsToGuests(ExportRows(gs), ids);
    RoundTripPrefix(gs, ids, news, |gs|);
    assert news[..|gs|] == news;
  }

  lemma {:induction false} RoundTripPrefix(gs: seq<Guest>, ids: seq<string>, news: seq<Guest>, k: nat)
    requires |ids| == |gs| && k <= |gs|
    requires DistinctKeys(gs)
    requires forall g :: g in gs ==> g.invitedCount != 0 && g.relation != "" && g.confirmed != ""
    requires news == RowsToGuests(ExportRows(gs), ids)
    ensures MergeAll(gs, news[..k]) == Reimported(gs, ids, k)
  {
    if k == 0 {
      assert Reimported(gs, ids, 0) == gs;
    } else {
      ReimportedGuest(gs, ids, news, k - 1);
      MergePrefixStep(gs, news, k);
      RoundTripPrefix(gs, ids, news, k - 1);
      ReimportStep(gs, ids, k);
    }
  }

  /** The re-imported row `i` is guest `i` under its new id. */
  lemma ReimportedGuest(gs: seq<Guest>, ids: seq<string>, news: seq<Guest>, i: nat)
    requires |ids| == |gs| && i < |gs|
    requires forall g :: g in gs ==> g.invitedCount != 0 && g.relation != "" && g.confirmed != ""
    requires news == RowsToGuests(ExportRows(gs), ids)
    ensures news[i] == gs[i].(id := ids[i])
  {
    assert ExportRows(gs)[i] == GuestToRow(gs[i]);
    assert gs[i] in gs;
    ExportedRowImportsBack(gs[i], ids[i]);
  }

  /** Merging the first `k` guests upserts guest `k - 1` into the merge
      of the ones before it. */
  lemma MergePrefixStep(gs: seq<Guest>, news: seq<Guest>, k: nat)
    requires 0 < k <= |news|
    ensures MergeAll(gs, news[..k]) == Upsert(MergeAll(gs, news[..k - 1]), news[k - 1])
  {
    MergeAllStep(gs, news[..k]);
    assert news[..k][..k - 1] == news[..k - 1];
  }

  /** Re-importing guest `k - 1` replaces it in place by itself under its new id. */
  lemma ReimportStep(gs: seq<Guest>, ids: seq<string>, k: nat)
    requires |ids| == |gs| && 0 < k <= |gs|
    requires DistinctKeys(gs)
    ensures Upsert(Reimported(gs, ids, k - 1), gs[k - 1].(id := ids[k - 1])) == Reimported(gs, ids, k)
  {
    var prev := Reimported(gs, ids, k - 1);
    var g := gs[k - 1].(id := ids[k - 1]);
    assert Key(prev[k - 1]) == Key(g);
    forall j | 0 <= j < k - 1 ensures Key(prev[j]) != Key(g) {
      assert prev[j] == gs[j].(id := ids[j]);
      assert Key(prev[j]) == Key(gs[j]);
    }
    UpsertReplacesFirstMatch(prev, g, k - 1);
    assert prev[k - 1 := g] == Reimported(gs, ids, k);
  }

  /** The search and relation filter of the list view. */
  predicate MatchesView(g: Guest, searchTerm: string, filterRelation: Option<string>, allRelations: string) {
    var matchesSearch :=
      Text.Contains(Text.Lower(g.fullName), Text.Lower(searchTerm))
      || Text.Contains(g.phoneNumber, searchTerm);
    var matchesFilter :=
      filterRelation.None? || filterRelation.value == ""
      || filterRelation.value == allRelations || g.relation == filterRelation.value;
    matchesSearch && matchesFilter
  }

  /** `filteredGuests`: the guests the list view shows. `allRelations` is
      the translated label of the "all relations" menu entry. */
  function FilteredGuests(gs: seq<Guest>, searchTerm: string, filterRelation: Option<string>,
                          allRelations: string): (r: seq<Guest>)
    ensures forall g :: g in r <==> g in gs && MatchesView(g, searchTerm, filterRelation, allRelations)
    ensures IsSubsequence(r, gs)
    ensures forall g :: multiset(r)[g] == if MatchesView(g, searchTerm, filterRelation, allRelations) then multiset(gs)[g] else 0
  {
    FilterCounts(gs, g => MatchesView(g, searchTerm, filterRelation, allRelations));
    FilterIsSubsequence(gs, g => MatchesView(g, searchTerm, filterRelation, allRelations));
    Filter(gs, g => MatchesView(g, searchTerm, filterRelation, allRelations))
  }

  /** With an empty search term and no relation filter the view shows the
      whole list. */
  lemma EmptyFilterShowsAll(gs: seq<Guest>, allRelations: string)
    ensures FilteredGuests(gs, "", None, allRelations) == gs
  {
    forall g | g in gs ensures MatchesView(g, "", None, allRelations) {
      assert Text.Lower("") == "";
      assert "" <= Text.Lower(g.fullName);
    }
    FilterKeepsAll(gs, g => MatchesView(g, "", None, allRelations));
  }

  /** The RSVP head counts shown above the list. */
  datatype Stats = Stats(total: int, confirmed: int, pending: int, declined: int)

  function InvitedCount(g: Guest): int { g.invitedCount }

  function WithStatus(status: string): Guest -> bool {
    (g: Guest) => g.confirmed == status
  }

  function StatusTotal(gs: seq<Guest>, status: string): int {
    Sum(Filter(gs, WithStatus(status)), InvitedCount)
  }

  function Statistics(gs: seq<Guest>): (st: Stats)
    ensures st == GuestTally(gs)
  {
    StatisticsIsGuestTally(gs);
    Stats(Sum(gs, InvitedCount), StatusTotal(gs, Yes), StatusTotal(gs, Maybe), StatusTotal(gs, No))
  }

  /** With non-negative counts the three status totals never exceed the
      total, and they add up to it when every guest has one of the three
      statuses. */
  lemma {:induction false} StatusTotalsBounded(gs: seq<Guest>)
    requires forall g :: g in gs ==> g.invitedCount >= 0
    ensures var st := Statistics(gs);
            st.confirmed + st.pending + st.declined <= st.total
    ensures (forall g :: g in gs ==> g.confirmed in {Yes, Maybe, No}) ==>
              var st := Statistics(gs);
              st.confirmed + st.pending + st.declined == st.total
  {
    if gs != [] {
      StatusTotalsBounded(gs[1..]);
      StatisticsCons(gs);
    }
  }

  /** The head counts contributed by one guest. */
  function GuestStats(g: Guest): Stats {
    Stats(g.invitedCount, CountIf(g, Yes), CountIf(g, Maybe), CountIf(g, No))
  }

  /** A guest's count when it has the status, otherwise nothing. */
  function CountIf(g: Guest, status: string): int {
    if g.confirmed == status then g.invitedCount else 0
  }

  function AddStats(x: Stats, y: Stats): Stats {
    Stats(x.total + y.total, x.confirmed + y.confirmed, x.pending + y.pending, x.declined + y.declined)
  }

  /** The head counts are the first guest's contribution plus the rest's. */
  lemma StatisticsCons(gs: seq<Guest>)
    requires gs != []
    ensures Statistics(gs) == AddStats(GuestStats(gs[0]), Statistics(gs[1..]))
  {
    var g, rest, st := gs[0], Statistics(gs[1..]), Statistics(gs);
    assert st.total == g.invitedCount + rest.total by { TotalCons(gs); }
    assert st.confirmed == CountIf(g, Yes) + rest.confirmed by { StatusTotalCons(gs, Yes); }
    assert st.pending == CountIf(g, Maybe) + rest.pending by { StatusTotalCons(gs, Maybe); }
    assert st.declined == CountIf(g, No) + rest.declined by { StatusTotalCons(gs, No); }
    var sum := AddStats(GuestStats(g), rest);
    assert sum.total == st.total && sum.confirmed == st.confirmed;
    assert sum.pending == st.pending && sum.declined == st.declined;
  }

  lemma TotalCons(gs: seq<Guest>)
    requires gs != []
    ensures Sum(gs, InvitedCount) == gs[0].invitedCount + Sum(gs[1..], InvitedCount)
  {
  }

  lemma StatusTotalCons(gs: seq<Guest>, status: string)
    requires gs != []
    ensures StatusTotal(gs, status) == CountIf(gs[0], status) + StatusTotal(gs[1..], status)
  {
    var rest := Filter(gs[1..], WithStatus(status));
    if gs[0].confirmed == status {
      assert Filter(gs, WithStatus(status)) == [gs[0]] + rest;
      assert ([gs[0]] + rest)[1..] == rest;
    }
  }

  /** The head counts tallied guest by guest, without filtering. */
  function GuestTally(gs: seq<Guest>): Stats {
    if gs == [] then Stats(0, 0, 0, 0) else AddStats(GuestStats(gs[0]), GuestTally(gs[1..]))
  }

  /** The filtered sums agree with a tally in which each guest adds its
      count to the total and to the column of its own status. */
  lemma {:induction false} StatisticsIsGuestTally(gs: seq<Guest>)
    ensures GuestTally(gs)
            == Stats(Sum(gs, InvitedCount), StatusTotal(gs, Yes), StatusTotal(gs, Maybe), StatusTotal(gs, No))
  {
    if gs != [] {
      var g, rest, tally := gs[0], gs[1..], GuestTally(gs);
      StatisticsIsGuestTally(rest);
      TallyCons(gs);
      assert tally.total == Sum(gs, InvitedCount) by { TotalCons(gs); }
      assert tally.confirmed == StatusTotal(gs, Yes) by { StatusTotalCons(gs, Yes); }
      assert tally.pending == StatusTotal(gs, Maybe) by { StatusTotalCons(gs, Maybe); }
      assert tally.declined == StatusTotal(gs, No) by { StatusTotalCons(gs, No); }
    }
  }

  /** The five sample guests of the planner's fixture data. */
  const SampleGuests: seq<Guest> := [
    Guest("1", "דוד כהן", "050-1234567", Family, 4, Yes, "אלרגי לאגוזים"),
    Guest("2", "רחל לוי", "052-7654321", Friends, 2, Maybe, ""),
    Guest("3", "יוסי גולדברג", "054-9876543", Work, 1, No, "צמחוני"),
    Guest("4", "שרה אברהמי", "053-1112222", Family, 3, Yes, ""),
    Guest("5", "משה דוד", "058-3334444", Friends, 2, Yes, "נגיש לכיסא גלגלים")
  ]

  /** On the fixture guests the view shows 12 invited, 9 confirmed,
      2 pending and 1 declined. */
  lemma SampleStatistics()
    ensures Statistics(SampleGuests) == Stats(12, 9, 2, 1)
  {
    SampleTally();
  }

  lemma SampleTally()
    ensures GuestTally(SampleGuests) == Stats(12, 9, 2, 1)
  {
    var gs := SampleGuests;
    StatusLabelsDistinct();
    var s0, s1, s2, s3, s4 := GuestStats(gs[0]), GuestStats(gs[1]), GuestStats(gs[2]), GuestStats(gs[3]), GuestStats(gs[4]);
    assert s0 == Stats(4, 4, 0, 0);
    assert s1 == Stats(2, 0, 2, 0);
    assert s2 == Stats(1, 0, 0, 1);
    assert s3 == Stats(3, 3, 0, 0);
    assert s4 == Stats(2, 2, 0, 0);
    TallyOfFive(gs);
  }

  lemma TallyOfFive(gs: seq<Guest>)
    requires |gs| == 5
    ensures GuestTally(gs) ==
      AddStats(GuestStats(gs[0]), AddStats(GuestStats(gs[1]), AddStats(GuestStats(gs[2]),
        AddStats(GuestStats(gs[3]), AddStats(GuestStats(gs[4]), Stats(0, 0, 0, 0))))))
  {
    assert gs[1..][1..] == gs[2..];
    assert gs[2..][1..] == gs[3..];
    assert gs[3..][1..] == gs[4..];
    assert gs[4..][1..] == [];
    TallyCons(gs);
    TallyCons(gs[1..]);
    TallyCons(gs[2..]);
    TallyCons(gs[3..]);
    TallyCons(gs[4..]);
  }

  lemma TallyCons(gs: seq<Guest>)
    requires gs != []
    ensures GuestTally(gs) == AddStats(GuestStats(gs[0]), GuestTally(gs[1..]))
  {
  }

  lemma StatusLabelsDistinct()
    ensures Yes != Maybe && Yes != No && Maybe != No
  {
  }

  /** `handleUpdateGuest`: every guest with the edited guest's id is
      replaced by it. */
  function UpdateById(gs: seq<Guest>, edited: Guest): (r: seq<Guest>)
    ensures |r| == |gs|
    ensures forall i :: 0 <= i < |gs| ==> r[i] == if gs[i].id == edited.id then edited else gs[i]
    ensures (forall g :: g in gs ==> g.id != edited.id) ==> r == gs
  {
    ReplaceWhere(gs, (g: Guest) => g.id == edited.id, edited)
  }

  /** `handleDeleteGuest`: exactly the guests with that id go; the rest
      stay, in order. */
  function RemoveById(gs: seq<Guest>, id: string): (r: seq<Guest>)
    ensures forall g :: g in r <==> g in gs && g.id != id
    ensures forall g: Guest :: g.id != id ==> multiset(r)[g] == multiset(gs)[g]
    ensures IsSubsequence(r, gs)
  {
    FilterCounts(gs, (g: Guest) => g.id != id);
    FilterIsSubsequence(gs, (g: Guest) => g.id != id);
    Filter(gs, (g: Guest) => g.id != id)
  }

  /** The add-guest form (`Partial<Guest>`): `None` where a field was never set. */
  datatype GuestDraft = GuestDraft(
    fullName: Option<string>,
    phoneNumber: Option<string>,
    relation: Option<string>,
    invitedCount: Option<int>,
    confirmed: Option<string>,
    specialNotes: Option<string>)

  const EmptyDraft := GuestDraft(None, None, None, None, None, None)

  /** The guest the add form creates. `friends` and `maybe` are the
      translated default labels for relation and confirmation. */
  function DraftToGuest(d: GuestDraft, id: string, friends: string, maybe: string): (g: Guest)
    requires d.fullName.Some?
    ensures g.id == id && g.fullName == d.fullName.value
    ensures friends == Friends && maybe == Maybe ==>
              g == RowToGuest(Row(d.fullName, d.phoneNumber, d.relation, d.invitedCount, d.confirmed, d.specialNotes), id)
  {
    Guest(
      id,
      d.fullName.value,
      TextOr(d.phoneNumber, ""),
      TextOr(d.relation, friends),
      CountOr(d.invitedCount, 1),
      TextOr(d.confirmed, maybe),
      TextOr(d.specialNotes, ""))
  }

  /** The guest-list component's state. */
  class GuestListView {
    var guests: seq<Guest>
    var searchTerm: string
    var filterRelation: Option<string>
    var newGuest: GuestDraft
    var editingGuest: Option<Guest>
    var isAddDialogOpen: bool
    var isEditDialogOpen: bool

    constructor ()
      ensures guests == [] && searchTerm == "" && filterRelation == None
      ensures newGuest == EmptyDraft && editingGuest == None
      ensures !isAddDialogOpen && !isEditDialogOpen
    {
      guests := [];
      searchTerm := "";
      filterRelation := None;
      newGuest := EmptyDraft;
      editingGuest := None;
      isAddDialogOpen := false;
      isEditDialogOpen := false;
    }

    /** `handleImportExcel` after the file is read: the rows become guests
        with the generated ids and are merged in, in order. */
    method ImportRows(rows: seq<Row>, ids: seq<string>)
      requires |ids| == |rows|
      modifies this`guests
      ensures guests == MergeAll(old(guests), RowsToGuests(rows, ids))
    {
      var newGuests := RowsToGuests(rows, ids);
      var start := guests;
      var updated := start;
      var i := 0;
      assert MergeAll(start, newGuests[..0]) == start by {
        assert newGuests[..0] == [];
      }
      while i < |newGuests|
        invariant 0 <= i <= |newGuests|
        invariant updated == MergeAll(start, newGuests[..i])
      {
        var newGuest := newGuests[i];
        var existing := FindByKey(updated, newGuest);
        ghost var merged := Upsert(updated, newGuest);
        MergePrefixStep(start, newGuests, i + 1);
        UpsertByIndex(updated, newGuest);
        if existing.None? {
          updated := updated + [newGuest];
        } else {
          updated := updated[existing.value := newGuest];
        }
        assert updated == merged;
        i := i + 1;
      }
      assert newGuests[..i] == newGuests;
      guests := updated;
    }

    /** `handleAddGuest`: nothing happens unless a full name was entered;
        otherwise one guest is appended and the form is reset and closed. */
    method AddGuest(id: string, friends: string, maybe: string)
      modifies this`guests, this`newGuest, this`isAddDialogOpen
      ensures old(TextOr(newGuest.fullName, "")) == "" ==>
                guests == old(guests) && newGuest == old(newGuest) && isAddDialogOpen == old(isAddDialogOpen)
      ensures old(TextOr(newGuest.fullName, "")) != "" ==>
                && guests == old(guests) + [DraftToGuest(old(newGuest), id, friends, maybe)]
                && newGuest == EmptyDraft && !isAddDialogOpen
    {
      if newGuest.fullName.Some? && newGuest.fullName.value != "" {
        var guestToAdd := DraftToGuest(newGuest, id, friends, maybe);
        guests := guests + [guestToAdd];
        newGuest := EmptyDraft;
        isAddDialogOpen := false;
      }
    }

    /** `handleEditGuest`: opens the edit dialog on a copy of the guest. */
    method EditGuest(g: Guest)
      modifies this`editingGuest, this`isEditDialogOpen
      ensures editingGuest == Some(g) && isEditDialogOpen
    {
      editingGuest := Some(g);
      isEditDialogOpen := true;
    }

    /** `handleUpdateGuest`: with a guest being edited, every guest with
        its id is replaced by it and the dialog closes. */
    method UpdateGuest()
      modifies this`guests, this`editingGuest, this`isEditDialogOpen
      ensures old(editingGuest).None? ==>
                guests == old(guests) && editingGuest == None && isEditDialogOpen == old(isEditDialogOpen)
      ensures old(editingGuest).Some? ==>
                && guests == UpdateById(old(guests), old(editingGuest).value)
                && editingGuest == None && !isEditDialogOpen
    {
      if editingGuest.Some? {
        guests := UpdateById(guests, editingGuest.value);
        editingGuest := None;
        isEditDialogOpen := false;
      }
    }

    /** `handleDeleteGuest`. */
    method DeleteGuest(id: string)
      modifies this`guests
      ensures guests == RemoveById(old(guests), id)
    {
      guests := RemoveById(guests, id);
    }
  }
}
