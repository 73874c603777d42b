/** The simple guest manager page: a list of guests with RSVP status and
    group, an add form that always appends, and a group/RSVP filter. */
module GuestsPage {
  import opened Lists

  const Confirmed := "מאושר"
  const Pending := "ממתין"
  const NotComing := "לא מגיע"

  datatype Guest = Guest(
    id: string,
    name: string,
    email: string,
    phone: string,
    rsvp: string,
    group: string,
    tableAssignment: string)

  /** The add form: every field but the id. */
  datatype GuestForm = GuestForm(
    name: string, email: string, phone: string, rsvp: string, group: string, tableAssignment: string)

  /** The form's initial and reset value: empty text and RSVP "ממתין". */
  const BlankForm := GuestForm("", "", "", Pending, "", "")

  function FormToGuest(f: GuestForm, id: string): Guest {
    Guest(id, f.name, f.email, f.phone, f.rsvp, f.group, f.tableAssignment)
  }

  function HasIdOf(u: Guest): Guest -> bool {
    (g: Guest) => g.id == u.id
  }

  /** The group and RSVP selects; "" means no filter. */
  datatype GuestFilter = GuestFilter(group: string, rsvp: string)

  predicate GuestMatches(g: Guest, f: GuestFilter) {
    (f.group == "" || g.group == f.group) && (f.rsvp == "" || g.rsvp == f.rsvp)
  }

  /** `filteredGuests`. */
  function FilteredGuests(gs: seq<Guest>, f: GuestFilter): (r: seq<Guest>)
    ensures forall g :: g in r <==> g in gs && GuestMatches(g, f)
    ensures IsSubsequence(r, gs)
    ensures forall g :: multiset(r)[g] == if GuestMatches(g, f) then multiset(gs)[g] else 0
  {
    FilterCounts(gs, (g: Guest) => GuestMatches(g, f));
    FilterIsSubsequence(gs, (g: Guest) => GuestMatches(g, f));
    Filter(gs, (g: Guest) => GuestMatches(g, f))
  }

  /** The initial filter shows every guest. */
  lemma InitialFilterShowsAllGuests(gs: seq<Guest>)
    ensures FilteredGuests(gs, GuestFilter("", "")) == gs
  {
    FilterKeepsAll(gs, (g: Guest) => GuestMatches(g, GuestFilter("", "")));
  }

  /** The menu entry "all" is compared literally: the group entry keeps
      only guests of a group named "all", and the RSVP entry hides every
      guest whose status is one of the three the form offers. */
  lemma AllEntriesAreLiteral(gs: seq<Guest>)
    ensures forall g :: g in FilteredGuests(gs, GuestFilter("all", "")) <==> g in gs && g.group == "all"
    ensures (forall g :: g in gs ==> g.rsvp in [Confirmed, Pending, NotComing]) ==>
              FilteredGuests(gs, GuestFilter("", "all")) == []
  {
    if forall g :: g in gs ==> g.rsvp in [Confirmed, Pending, NotComing] {
      FilterKeepsNone(gs, (g: Guest) => GuestMatches(g, GuestFilter("", "all")));
    }
  }

  function IntendedFilteredGuests(gs: seq<Guest>, f: GuestFilter): (r: seq<Guest>)
    ensures forall g :: g in r <==> g in gs && GuestMatches(g, GuestFilter(Unrestricted(f.group), Unrestricted(f.rsvp)))
    ensures IsSubsequence(r, gs)
    ensures forall g :: multiset(r)[g] == if GuestMatches(g, GuestFilter(Unrestricted(f.group), Unrestricted(f.rsvp))) then multiset(gs)[g] else 0
  {
    FilteredGuests(gs, GuestFilter(Unrestricted(f.group), Unrestricted(f.rsvp)))
  }

  /** With the intended reading, "all" in both selects shows every guest,
      and "all" for the group with an RSVP status shows exactly the guests
      with that status. */
  lemma IntendedAllShowsAllGuests(gs: seq<Guest>, rsvp: string)
    requires rsvp != "all"
    ensures IntendedFilteredGuests(gs, GuestFilter("all", "all")) == gs
    ensures forall g :: g in IntendedFilteredGuests(gs, GuestFilter("all", rsvp)) <==>
              g in gs && (rsvp == "" || g.rsvp == rsvp)
  {
    InitialFilterShowsAllGuests(gs);
  }

  /** The guest manager's state. */
  class GuestManagement {
    var guests: seq<Guest>
    var newGuest: GuestForm
    var filter: GuestFilter

    constructor ()
      ensures guests == [] && newGuest == BlankForm && filter == GuestFilter("", "")
    {
      guests := [];
      newGuest := BlankForm;
      filter := GuestFilter("", "");
    }

    /** `addGuest`: the form becomes a guest with the fresh id, appended
        whatever it holds (an empty name too); the form is reset. */
    method AddGuest(id: string)
      modifies this`guests, this`newGuest
      ensures guests == old(guests) + [FormToGuest(old(newGuest), id)]
      ensures newGuest == BlankForm
    {
      guests := guests + [FormToGuest(newGuest, id)];
      newGuest := BlankForm;
    }

    /** `updateGuest`: every guest with the edited guest's id is replaced
        by it; length and order are kept. */
    method UpdateGuest(updated: Guest)
      modifies this`guests
      ensures guests == ReplaceWhere(old(guests), HasIdOf(updated), updated)
    {
      guests := ReplaceWhere(guests, HasIdOf(updated), updated);
    }
  }
}
