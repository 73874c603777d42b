/** The budget card of the planner: budget items with a planned amount, a
    deposit and an actual amount that stays empty until it is known, an add
    form that validates, and the three totals. */
module BudgetItems {
  import opened Lists

  datatype BudgetItem = BudgetItem(
    id: string,
    category: string,
    description: string,
    planned: int,
    deposit: int,
    actual: Option<int>)

  /** The add form; a field the user never touched is "" or 0, which the
      form's truthiness tests treat exactly as a missing field. */
  datatype ItemDraft = ItemDraft(category: string, description: string, planned: int, deposit: int)

  const EmptyItemDraft := ItemDraft("", "", 0, 0)

  /** The add button does something only with a category, a description
      and a non-zero planned amount, so the cleared form never passes. */
  predicate ValidDraft(d: ItemDraft): (ok: bool)
    ensures ok ==> d != EmptyItemDraft
  {
    d.category != "" && d.description != "" && d.planned != 0
  }

  /** The item `handleAddItem` builds: the fresh id, the deposit (0 when
      none was given) and no actual amount yet. */
  function DraftToItem(d: ItemDraft, id: string): BudgetItem {
    BudgetItem(id, d.category, d.description, d.planned, d.deposit, None)
  }

  function Planned(item: BudgetItem): int { item.planned }

  function Deposit(item: BudgetItem): int { item.deposit }

  /** `item.actual || 0`: a missing actual amount counts as 0. */
  function ActualOrZero(item: BudgetItem): int {
    if item.actual.Some? then item.actual.value else 0
  }

  /** `totalPlanned`. */
  function TotalPlanned(items: seq<BudgetItem>): (total: int)
    ensures (forall item :: item in items ==> item.planned >= 0) ==>
              total >= 0 && forall item :: item in items ==> item.planned <= total
  {
    SumAtLeastEach(items, Planned);
    Sum(items, Planned)
  }

  /** `totalDeposit`. */
  function TotalDeposit(items: seq<BudgetItem>): (total: int)
    ensures (forall item :: item in items ==> item.deposit >= 0) ==>
              total >= 0 && forall item :: item in items ==> item.deposit <= total
  {
    SumAtLeastEach(items, Deposit);
    Sum(items, Deposit)
  }

  /** When no item's deposit exceeds its planned amount, the deposit total
      does not exceed the planned total. */
  lemma {:induction false} DepositsWithinPlanned(items: seq<BudgetItem>)
    requires forall item :: item in items ==> item.deposit <= item.planned
    ensures TotalDeposit(items) <= TotalPlanned(items)
  {
    if items != [] {
      DepositsWithinPlanned(items[1..]);
    }
  }

  /** `totalActual`. */
  function TotalActual(items: seq<BudgetItem>): (total: int)
    ensures (forall item :: item in items ==> item.actual.None?) ==> total == 0
  {
    Sum(items, ActualOrZero)
  }

  /** A valid add raises the planned total by the new planned amount and
      the deposit total by the new deposit, and leaves the actual total as
      it was. */
  lemma AddedItemTotals(items: seq<BudgetItem>, d: ItemDraft, id: string)
    ensures TotalPlanned(items + [DraftToItem(d, id)]) == TotalPlanned(items) + d.planned
    ensures TotalDeposit(items + [DraftToItem(d, id)]) == TotalDeposit(items) + d.deposit
    ensures TotalActual(items + [DraftToItem(d, id)]) == TotalActual(items)
  {
    var item := DraftToItem(d, id);
    SumAppend(items, item, Planned);
    SumAppend(items, item, Deposit);
    SumAppend(items, item, ActualOrZero);
  }

  /** The five budget items of the planner's fixture data. */
  const SampleItems: seq<BudgetItem> := [
    BudgetItem("1", "אולם", "מקדמה לאולם", 20000, 10000, None),
    BudgetItem("2", "קייטרינג", "תשלום ראשון לקייטרינג", 30000, 15000, None),
    BudgetItem("3", "שמלת כלה", "תשלום מקדמה לשמלה", 8000, 4000, None),
    BudgetItem("4", "צלם", "מקדמה לצלם", 5000, 2500, None),
    BudgetItem("5", "מוזיקה", "תשלום לדי-ג'יי", 3000, 1500, None)
  ]

  /** On the fixture items the card shows 66000 planned, 33000 in deposits
      and 0 actual. */
  lemma SampleTotals()
    ensures TotalPlanned(SampleItems) == 66000
    ensures TotalDeposit(SampleItems) == 33000
    ensures TotalActual(SampleItems) == 0
  {
    var items := SampleItems;
    assert items[4..][1..] == [];
    assert items[3..][1..] == items[4..];
    assert items[2..][1..] == items[3..];
    assert items[1..][1..] == items[2..];
    assert TotalPlanned(items[4..]) == 3000 && TotalDeposit(items[4..]) == 1500;
    assert TotalPlanned(items[3..]) == 8000 && TotalDeposit(items[3..]) == 4000;
    assert TotalPlanned(items[2..]) == 16000 && TotalDeposit(items[2..]) == 8000;
    assert TotalPlanned(items[1..]) == 46000 && TotalDeposit(items[1..]) == 23000;
  }

  /** The budget card's state. */
  class BudgetCard {
    var budgetItems: seq<BudgetItem>
    var newItem: ItemDraft

    constructor ()
      ensures budgetItems == [] && newItem == EmptyItemDraft
    {
      budgetItems := [];
      newItem := EmptyItemDraft;
    }

    /** `handleAddItem`: with an invalid form nothing changes; otherwise
        exactly one item is appended and the form is cleared. */
    method AddItem(id: string)
      modifies this`budgetItems, this`newItem
      ensures !ValidDraft(old(newItem)) ==> budgetItems == old(budgetItems) && newItem == old(newItem)
      ensures ValidDraft(old(newItem)) ==>
                budgetItems == old(budgetItems) + [DraftToItem(old(newItem), id)] && newItem == EmptyItemDraft
    {
      if newItem.category != "" && newItem.description != "" && newItem.planned != 0 {
        var itemToAdd := DraftToItem(newItem, id);
        budgetItems := budgetItems + [itemToAdd];
        newItem := EmptyItemDraft;
      }
    }
  }
}
