/** The seating arrangement page: tables, each with an ordered list of
    seated guests, a drag-and-drop move of one guest from a position at one
    table to a position at another (or the same) table, and the list of
    guests not seated anywhere. */
module Seating {
  import opened Lists

  datatype Guest = Guest(id: string, name: string, group: string)

  /** `splice(k, 1)`: the list without its element at `k`. */
  function RemoveAt(s: seq<Guest>, k: nat): (r: seq<Guest>)
    requires k < |s|
    ensures |r| == |s| - 1
    ensures multiset(r) + multiset{s[k]} == multiset(s)
  {
    assert s == s[..k] + [s[k]] + s[k + 1..];
    s[..k] + s[k + 1..]
  }

  /** `splice(j, 0, x)`: `x` inserted before position `j`, or at the end
      when `j` is past it. */
  function InsertAt(s: seq<Guest>, j: nat, x: Guest): (r: seq<Guest>)
    ensures |r| == |s| + 1
    ensures multiset(r) == multiset(s) + multiset{x}
    ensures r[if j <= |s| then j else |s|] == x
  {
    var p := if j <= |s| then j else |s|;
    assert s == s[..p] + s[p..];
    s[..p] + [x] + s[p..]
  }

  /** Every seated guest, table after table. */
  function Flatten(layout: seq<seq<Guest>>): seq<Guest> {
    if layout == [] then [] else layout[0] + Flatten(layout[1..])
  }

  /** The drop of the guest at position `k` of table `si` onto position
      `j` of table `di`: the guest leaves the source list and enters the
      destination list; when both are the same table the guest is moved
      within it. */
  function Move(layout: seq<seq<Guest>>, si: nat, k: nat, di: nat, j: nat): (r: seq<seq<Guest>>)
    requires si < |layout| && di < |layout| && k < |layout[si]|
    ensures |r| == |layout|
    ensures forall t :: 0 <= t < |layout| && t != si && t != di ==> r[t] == layout[t]
  {
    var x := layout[si][k];
    var removed := layout[si := RemoveAt(layout[si], k)];
    removed[di := InsertAt(removed[di], j, x)]
  }

  /** Replacing one table's list changes the seated multiset by exactly
      the difference between the two lists. */
  lemma {:induction false} FlattenUpdate(layout: seq<seq<Guest>>, i: nat, s: seq<Guest>)
    requires i < |layout|
    ensures multiset(Flatten(layout[i := s])) + multiset(layout[i]) == multiset(Flatten(layout)) + multiset(s)
  {
    var updated := layout[i := s];
    if i == 0 {
      assert updated[1..] == layout[1..];
    } else {
      var rest, rest' := layout[1..], layout[1..][i - 1 := s];
      FlattenUpdate(rest, i - 1, s);
      assert updated[1..] == rest';
      assert rest[i - 1] == layout[i];
      var mu, mr, ml, m0 := multiset(Flatten(rest')), multiset(Flatten(rest)), multiset(Flatten(layout)), multiset(layout[0]);
      assert multiset(Flatten(updated)) == m0 + mu;
      assert ml == m0 + mr;
      assert mu + multiset(layout[i]) == mr + multiset(s);
      forall g ensures (m0 + mu + multiset(layout[i]))[g] == (m0 + mr + multiset(s))[g] {
        assert (mu + multiset(layout[i]))[g] == (mr + multiset(s))[g];
      }
      assert m0 + mu + multiset(layout[i]) == m0 + mr + multiset(s);
    }
  }

  /** A move keeps the multiset of seated guests across all tables, and
      so their number. */
  lemma MovePreservesGuests(layout: seq<seq<Guest>>, si: nat, k: nat, di: nat, j: nat)
    requires si < |layout| && di < |layout| && k < |layout[si]|
    ensures multiset(Flatten(Move(layout, si, k, di, j))) == multiset(Flatten(layout))
    ensures |Flatten(Move(layout, si, k, di, j))| == |Flatten(layout)|
  {
    var x := layout[si][k];
    var removed := layout[si := RemoveAt(layout[si], k)];
    FlattenRemove(layout, si, k);
    FlattenInsert(removed, di, j, x);
    var moved := Move(layout, si, k, di, j);
    assert moved == removed[di := InsertAt(removed[di], j, x)];
    assert |multiset(Flatten(moved))| == |multiset(Flatten(layout))|;
  }

  /** Taking a guest out of a table takes it out of the seated multiset. */
  lemma FlattenRemove(layout: seq<seq<Guest>>, si: nat, k: nat)
    requires si < |layout| && k < |layout[si]|
    ensures multiset(Flatten(layout[si := RemoveAt(layout[si], k)])) + multiset{layout[si][k]}
            == multiset(Flatten(layout))
  {
    var x, out := layout[si][k], RemoveAt(layout[si], k);
    FlattenUpdate(layout, si, out);
    var mr, ml, mo := multiset(Flatten(layout[si := out])), multiset(Flatten(layout)), multiset(out);
    assert mr + multiset(layout[si]) == ml + mo;
    assert mo + multiset{x} == multiset(layout[si]);
    forall g ensures (mr + multiset{x})[g] == ml[g] {
      assert (mr + multiset(layout[si]))[g] == (ml + mo)[g];
      assert (mo + multiset{x})[g] == multiset(layout[si])[g];
    }
    assert mr + multiset{x} == ml;
  }

  /** Putting a guest at a table adds it to the seated multiset. */
  lemma FlattenInsert(layout: seq<seq<Guest>>, di: nat, j: nat, x: Guest)
    requires di < |layout|
    ensures multiset(Flatten(layout[di := InsertAt(layout[di], j, x)])) == multiset(Flatten(layout)) + multiset{x}
  {
    var into := InsertAt(layout[di], j, x);
    FlattenUpdate(layout, di, into);
    var mi, ml := multiset(Flatten(layout[di := into])), multiset(Flatten(layout));
    assert mi + multiset(layout[di]) == ml + multiset(into);
    assert multiset(into) == multiset(layout[di]) + multiset{x};
    forall g ensures mi[g] == (ml + multiset{x})[g] {
      assert (mi + multiset(layout[di]))[g] == (ml + multiset(into))[g];
    }
    assert mi == ml + multiset{x};
  }

  /** A move within one table reorders that table's list. */
  lemma MoveWithinTableIsPermutation(layout: seq<seq<Guest>>, si: nat, k: nat, j: nat)
    requires si < |layout| && k < |layout[si]|
    ensures multiset(Move(layout, si, k, si, j)[si]) == multiset(layout[si])
  {
  }

  /** A move between two tables takes the guest out of the source and
      puts it into the destination, which grows by one whatever its
      capacity. */
  lemma MoveBetweenTables(layout: seq<seq<Guest>>, si: nat, k: nat, di: nat, j: nat)
    requires si < |layout| && di < |layout| && k < |layout[si]| && si != di
    ensures Move(layout, si, k, di, j)[si] == RemoveAt(layout[si], k)
    ensures Move(layout, si, k, di, j)[di] == InsertAt(layout[di], j, layout[si][k])
    ensures |Move(layout, si, k, di, j)[di]| == |layout[di]| + 1
  {
  }

  /** Dropping the first guest of table A = [g1, g2] at the front of table
      B = [g3] leaves A = [g2] and B = [g1, g3]. */
  lemma MoveExample(g1: Guest, g2: Guest, g3: Guest)
    ensures Move([[g1, g2], [g3]], 0, 0, 1, 0) == [[g2], [g1, g3]]
  {
    assert RemoveAt([g1, g2], 0) == [g2];
    assert InsertAt([g3], 0, g1) == [g1, g3];
  }

  /** The guest id is seated at some table. */
  predicate Seated(layout: seq<seq<Guest>>, id: string) {
    exists t, p :: 0 <= t < |layout| && 0 <= p < |layout[t]| && layout[t][p].id == id
  }

  lemma {:induction false} SeatedIffInFlatten(layout: seq<seq<Guest>>, id: string)
    ensures Seated(layout, id) <==> exists g :: g in Flatten(layout) && g.id == id
  {
    if layout != [] {
      SeatedIffInFlatten(layout[1..], id);
      if Seated(layout, id) {
        var t, p :| 0 <= t < |layout| && 0 <= p < |layout[t]| && layout[t][p].id == id;
        if t > 0 {
          assert layout[1..][t - 1][p].id == id;
        }
      }
      if exists g :: g in Flatten(layout[1..]) && g.id == id {
        var t, p :| 0 <= t < |layout[1..]| && 0 <= p < |layout[1..][t]| && layout[1..][t][p].id == id;
        assert layout[t + 1][p].id == id;
      }
      if g :| g in layout[0] && g.id == id {
        var p :| 0 <= p < |layout[0]| && layout[0][p] == g;
        assert layout[0][p].id == id;
      }
    }
  }

  /** The unassigned list: the guests whose id is seated at no table, in
      their original order. */
  function Unassigned(guests: seq<Guest>, layout: seq<seq<Guest>>): (r: seq<Guest>)
    ensures forall g :: g in r <==> g in guests && !Seated(layout, g.id)
    ensures IsSubsequence(r, guests)
    ensures forall g :: multiset(r)[g] == if !Seated(layout, g.id) then multiset(guests)[g] else 0
  {
    FilterCounts(guests, (g: Guest) => !Seated(layout, g.id));
    FilterIsSubsequence(guests, (g: Guest) => !Seated(layout, g.id));
    Filter(guests, (g: Guest) => !Seated(layout, g.id))
  }

  /** A move does not change which guests are unassigned. */
  lemma MoveKeepsUnassigned(guests: seq<Guest>, layout: seq<seq<Guest>>, si: nat, k: nat, di: nat, j: nat)
    requires si < |layout| && di < |layout| && k < |layout[si]|
    ensures Unassigned(guests, Move(layout, si, k, di, j)) == Unassigned(guests, layout)
  {
    var moved := Move(layout, si, k, di, j);
    MovePreservesGuests(layout, si, k, di, j);
    forall g: Guest ensures Seated(moved, g.id) == Seated(layout, g.id) {
      SeatedIffInFlatten(moved, g.id);
      SeatedIffInFlatten(layout, g.id);
      forall h | h in Flatten(moved) ensures h in Flatten(layout) {
        assert h in multiset(Flatten(moved));
      }
      forall h | h in Flatten(layout) ensures h in Flatten(moved) {
        assert h in multiset(Flatten(layout));
      }
    }
    FilterCongruent(guests, (g: Guest) => !Seated(moved, g.id), (g: Guest) => !Seated(layout, g.id));
  }

  /** One table. Its guest list is changed in place by a drop. */
  class Table {
    const id: string
    const name: string
    const capacity: int
    var guests: seq<Guest>

    constructor (id: string, name: string, capacity: int)
      ensures this.id == id && this.name == name && this.capacity == capacity && guests == []
    {
      this.id := id;
      this.name := name;
      this.capacity := capacity;
      guests := [];
    }
  }

  /** `tables.find(t => t.id === id)`: the position of the first table
      with the id. */
  function FindTable(ts: seq<Table>, id: string): (r: Option<nat>)
    ensures r.Some? ==> r.value < |ts| && ts[r.value].id == id
    ensures r.Some? ==> forall t :: 0 <= t < r.value ==> ts[t].id != id
    ensures r.None? ==> forall t :: 0 <= t < |ts| ==> ts[t].id != id
  {
    if ts == [] then None
    else if ts[0].id == id then Some(0)
    else match FindTable(ts[1..], id)
      case None => None
      case Some(i) => Some(i + 1)
  }

  /** The guest lists of the tables, in table order. */
  function GuestLists(ts: seq<Table>): (layout: seq<seq<Guest>>)
    reads set t | t in ts
    ensures |layout| == |ts|
    ensures forall i :: 0 <= i < |ts| ==> layout[i] == ts[i].guests
  {
    if ts == [] then [] else [ts[0].guests] + GuestLists(ts[1..])
  }

  /** Where a drag started or ended: a droppable id ("unassigned" or a
      table id) and a position in it. */
  datatype Location = Location(droppableId: string, index: nat)

  /** The table form; a field the user never touched is "" or 0. */
  datatype TableDraft = TableDraft(name: string, capacity: int)

  const EmptyTableDraft := TableDraft("", 0)

  /** The seating page's state. */
  class SeatingArrangement {
    var tables: seq<Table>
    var guests: seq<Guest>
    var newTable: TableDraft

    /** Each table object appears once in the list. */
    ghost predicate Valid()
      reads this
    {
      forall a, b :: 0 <= a < b < |tables| ==> tables[a] != tables[b]
    }

    function Layout(): seq<seq<Guest>>
      reads this, set t | t in tables
    {
      GuestLists(tables)
    }

    constructor ()
      ensures Valid() && tables == [] && guests == [] && newTable == EmptyTableDraft
    {
      tables := [];
      guests := [];
      newTable := EmptyTableDraft;
    }

    /** `addTable`: a new table with no guests is appended and the form
        is cleared. */
    method AddTable(id: string)
      requires Valid()
      modifies this`tables, this`newTable
      ensures Valid()
      ensures |tables| == |old(tables)| + 1 && tables[..|old(tables)|] == old(tables)
      ensures fresh(tables[|tables| - 1])
      ensures Layout() == old(Layout()) + [[]]
      ensures tables[|tables| - 1].id == id && tables[|tables| - 1].name == old(newTable).name
      ensures tables[|tables| - 1].capacity == old(newTable).capacity
      ensures newTable == EmptyTableDraft
    {
      var table := new Table(id, newTable.name, newTable.capacity);
      tables := tables + [table];
      newTable := EmptyTableDraft;
      assert tables[..|old(tables)|] == old(tables);
    }

    /** `onDragEnd`. A drop outside any droppable, or from or onto a
        droppable that is not a table, changes nothing. Otherwise the
        guest at the source position (which the drag library guarantees
        exists) is spliced out of the source table and spliced into the
        destination table, with no capacity check. */
    method OnDragEnd(source: Location, destination: Option<Location>)
      requires Valid()
      requires FindTable(tables, source.droppableId).Some? ==>
                 source.index < |tables[FindTable(tables, source.droppableId).value].guests|
      modifies set t | t in tables
      ensures Valid() && tables == old(tables)
      ensures (|| destination.None? || FindTable(tables, source.droppableId).None?
               || FindTable(tables, destination.value.droppableId).None?) ==> Layout() == old(Layout())
      ensures destination.Some? && FindTable(tables, source.droppableId).Some?
              && FindTable(tables, destination.value.droppableId).Some? ==>
                Layout() == Move(old(Layout()), FindTable(tables, source.droppableId).value, source.index,
                                 FindTable(tables, destination.value.droppableId).value, destination.value.index)
    {
      if destination.None? {
        return;
      }
      var si := FindTable(tables, source.droppableId);
      var di := FindTable(tables, destination.value.droppableId);
      if si.Some? && di.Some? {
        MoveGuest(si.value, source.index, di.value, destination.value.index);
      }
    }

    /** The two splices of a drop between table positions `si` and `di`. */
    method MoveGuest(si: nat, k: nat, di: nat, j: nat)
      requires Valid() && si < |tables| && di < |tables| && k < |tables[si].guests|
      modifies tables[si], tables[di]
      ensures Layout() == Move(old(Layout()), si, k, di, j)
    {
      ghost var before := Layout();
      var sourceTable := tables[si];
      var destTable := tables[di];
      var reorderedItem := sourceTable.guests[k];
      sourceTable.guests := RemoveAt(sourceTable.guests, k);
      destTable.guests := InsertAt(destTable.guests, j, reorderedItem);
      ghost var after := Move(before, si, k, di, j);
      forall t | 0 <= t < |tables| ensures tables[t].guests == after[t] {
        if t != si && t != di {
          assert tables[t] != sourceTable && tables[t] != destTable;
        }
      }
    }

    /** The guests shown in the "unassigned" list. */
    function UnassignedGuests(): (r: seq<Guest>)
      reads this, set t | t in tables
      ensures forall g :: g in r <==> g in guests && !Seated(Layout(), g.id)
      ensures forall g :: multiset(r)[g] == if !Seated(Layout(), g.id) then multiset(guests)[g] else 0
    {
      Unassigned(guests, Layout())
    }
  }
}
