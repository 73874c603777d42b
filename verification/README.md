# Wedding planner: a verified model of its list stores and derivations

The planner is a client-side web application for organising a wedding. It
keeps a guest list with spreadsheet import and export and RSVP head counts.
Separate pages manage expenses, vendors, tasks, a simple guest list,
collaborative tasks and decisions, a supplier search and a seating plan. A
budget card totals planned amounts, deposits and actual costs, and the
dashboard shows rounded percentages. A support chat answers with keyword
rules, and a translation hook looks up texts and fills in `{{name}}`
placeholders.

This project models that logic in Dafny, one module per source file:

- **`GuestList`** (components/guest-list.tsx): the guest list.
  - Spreadsheet rows are mapped to guests with defaults.
  - Import merges rows by the key (lower-cased full name, exact phone number).
  - Export, and the export/import round trip.
  - The search and relation filter, and the RSVP head counts.
  - The add, edit, update and delete handlers, as methods of a class.
- **`BudgetPage`**, **`VendorsPage`**, **`TasksPage`**, **`GuestsPage`**:
  - each page's list is a class field;
  - the append-with-defaults add and the replace-by-id update are methods;
  - the field filters and the aggregations are functions.
- **`Categories`**: the category list shared by three pages.
  - It is initialised from the distinct record categories.
  - It grows with a duplicate-free add.
- **`BudgetItems`** (components/budget.tsx): the validated add and the three totals.
- **`Dashboard`**: the integer percentage with its zero guard.
- **`Suppliers`**: the three-way supplier filter.
- **`Collaborative`**: toggling tasks, choosing options and the decision form.
- **`Seating`**: tables are objects whose guest lists a drop changes in
  place. A drop splices a guest out of one table and into another. The
  model proves this keeps the multiset of seated guests.
- **`SupportChat`**: the first-match keyword responder, the FAQ answers and
  the append-only message log.
- **`Translation`**: the lookup with key fallback and the sequential global
  `{{name}}` replacement.
- **`Lists`** and **`Text`**: the JavaScript array and string operations the
  pages use. These are `filter`, `reduce`, `map`, `new Set`, `includes`,
  `toLowerCase` and `trim`.

Ids from `Date.now()` and the chat's random pick are parameters. Integers
are unbounded.

## Model

| member | source | states |
|---|---|---|
| GuestList.RowsToGuests | components/guest-list.tsx:49-57 | one guest per imported row, in row order, each with the id generated for it and the row's cells or their defaults |
| GuestList.RowToGuest | components/guest-list.tsx:49-57 | the imported guest gets the generated id; relation, count and confirmation are never empty or zero, because their defaults fill in; a present name, phone or notes cell is kept |
| GuestList.GuestToRow | components/guest-list.tsx:83-90 | all six cells are filled, and importing the row gives back the guest's name, phone and notes |
| GuestList.ImportDefaults | components/guest-list.tsx:49-57 | an empty row imports as name "", phone "", relation "חברים", count 1, confirmation "אולי", notes "" |
| GuestList.ExportRows | components/guest-list.tsx:83-90 | one row per guest in list order, each holding the guest's six exported fields |
| GuestList.ExportedRowImportsBack | components/guest-list.tsx:49-57 | importing an exported row gives back the guest under the new id when its count is non-zero and relation and confirmation are non-empty |
| GuestList.FindByKey | components/guest-list.tsx:60-62 | `findIndex` on the key: the index of the first guest with the same lower-cased name and phone, or none when no guest has it |
| GuestList.FindByKeyFirst | components/guest-list.tsx:60-62 | the first guest with the key is exactly the one found |
| GuestList.Upsert | components/guest-list.tsx:59-70 | the imported guest is in the result and no other new guest is; the key set gains its key; the length grows by one exactly when the key was new; distinct keys stay distinct |
| GuestList.MergeAll | components/guest-list.tsx:59-70 | the merged key set is the old keys plus the imported ones; the list grows by at most the number of imported guests; distinct keys stay distinct |
| GuestList.UpsertReplacesFirstMatch | components/guest-list.tsx:59-70 | a row matching a guest replaces the first such guest at its index; length and every other guest unchanged |
| GuestList.UpsertAppendsNewKey | components/guest-list.tsx:59-70 | a row matching no guest is appended at the end |
| GuestList.UpsertSameKeyTwice | components/guest-list.tsx:59-70 | two rows with the same key in one import collapse into one record carrying the later row's fields |
| GuestList.ExportImportRoundTrip | components/guest-list.tsx:49-90 | exporting and re-importing into the same list, with distinct keys and no defaulted field, keeps the length and every guest, ids becoming the new ones |
| GuestList.FilteredGuests | components/guest-list.tsx:97-102 | a guest is shown iff (lower-cased name contains the lower-cased term or phone contains the term) and (no relation filter, the "all relations" label, or equal relation); the result is an in-order subsequence keeping every matching occurrence |
| GuestList.EmptyFilterShowsAll | components/guest-list.tsx:97-102 | an empty search with no relation filter shows the whole list |
| GuestList.Statistics | components/guest-list.tsx:149-158 | the four head counts equal the guest-by-guest tally `GuestTally` |
| GuestList.StatusTotalsBounded | components/guest-list.tsx:149-158 | with non-negative counts confirmed + pending + declined ≤ total, with equality when every status is כן, אולי or לא |
| GuestList.StatisticsIsGuestTally | components/guest-list.tsx:149-158 | the filtered sums equal a tally in which each guest adds its count to the total and to its own status column |
| GuestList.SampleStatistics | lib/dummyData.ts:11-57 | the five fixture guests give 12 invited, 9 confirmed, 2 pending, 1 declined |
| GuestList.UpdateById | components/guest-list.tsx:129-138 | every guest with the edited guest's id is replaced by it, others kept in place; no match leaves the list unchanged |
| GuestList.RemoveById | components/guest-list.tsx:140-146 | exactly the guests with the id go; the rest keep their multiplicities and order |
| GuestList.DraftToGuest | components/guest-list.tsx:104-122 | the new guest has the id and the typed name; with the Hebrew default labels it is the guest that an imported row with the same cells gives |
| GuestList.GuestListView.constructor | components/guest-list.tsx:24-30 | an empty list, an empty search, no relation filter, a blank form, no guest being edited, both dialogs closed |
| GuestList.GuestListView.ImportRows | components/guest-list.tsx:59-70 | the loop over the imported guests leaves the list equal to upserting them one by one, in order |
| GuestList.GuestListView.AddGuest | components/guest-list.tsx:104-122 | an empty or missing name changes nothing; otherwise one guest with the defaults is appended and the form is reset and closed |
| GuestList.GuestListView.EditGuest | components/guest-list.tsx:124-127 | the guest is put in the edit dialog, which opens |
| GuestList.GuestListView.UpdateGuest | components/guest-list.tsx:129-138 | with a guest being edited, the list becomes `UpdateById` and the dialog closes; otherwise the list is unchanged |
| GuestList.GuestListView.DeleteGuest | components/guest-list.tsx:140-146 | the list becomes `RemoveById` |
| Lists.Distinct | app/dashboard/budget/page.tsx:36 | `[...new Set(xs)]`: no duplicates, the same elements, in first-occurrence order |
| Lists.ReplaceWhere | app/dashboard/budget/page.tsx:57 | `map` with a conditional replacement: same length, hits replaced, others kept; no hit leaves the list unchanged |
| Categories.InitialCategories | app/dashboard/budget/page.tsx:36-37 | the distinct record categories, duplicate-free, in first-occurrence order |
| Categories.WithCategory | app/dashboard/budget/page.tsx:60-65 | `addCategory` appends a non-empty name that is not yet present; an empty or present name leaves the list unchanged |
| Categories.WithCategoryNoDuplicates | app/dashboard/budget/page.tsx:60-65 | adding a category keeps the list duplicate-free |
| BudgetPage.FilteredExpenses | app/dashboard/budget/page.tsx:67-71 | an expense is shown iff (no category or equal category) and (no paid filter or `String(paid)` equal to it); in-order subsequence keeping every matching occurrence |
| BudgetPage.EmptyFilterShowsAllExpenses | app/dashboard/budget/page.tsx:67-71 | both filter fields empty show every expense |
| BudgetPage.PaidFilterSelectsStatus | app/dashboard/budget/page.tsx:70 | "true" shows exactly the paid expenses and "false" exactly the unpaid ones |
| BudgetPage.AllPaidShowsNothing | app/dashboard/budget/page.tsx:178 | the payment entry "all" hides every expense |
| BudgetPage.AllCategoryIsLiteral | app/dashboard/budget/page.tsx:165 | the category entry "all" keeps only expenses whose category is literally "all" |
| BudgetPage.IntendedFilteredExpenses | app/dashboard/budget/page.tsx:67-71 | the filter with "all" read as no restriction, keeping every matching occurrence in order |
| BudgetPage.IntendedAllShowsEverything | app/dashboard/budget/page.tsx:165-180 | with "all" read as no restriction, "all"/"all" shows every expense and a category with "all" shows that category |
| BudgetPage.DraftToExpense | app/dashboard/budget/page.tsx:48-53 | the new expense has the fresh id and is unpaid: it shows under its own category with the payment filter "false" and never with "true" |
| BudgetPage.TotalExpenses | app/dashboard/budget/page.tsx:73 | with non-negative amounts the total is non-negative and at least every single amount |
| BudgetPage.RemainingBudget | app/dashboard/budget/page.tsx:73-74 | remaining + total of all expenses = budget; with non-negative amounts it never exceeds the budget |
| BudgetPage.AddedExpenseCounts | app/dashboard/budget/page.tsx:73-74 | an added expense raises the total by its amount and lowers the remaining budget by as much |
| BudgetPage.OverspentBudget | app/dashboard/budget/page.tsx:74 | the remaining budget can be negative |
| BudgetPage.CategoryTotal | app/dashboard/budget/page.tsx:76-81 | a category that no expense has totals 0; with non-negative amounts a category's total lies between 0 and `totalExpenses` |
| BudgetPage.ChartData | app/dashboard/budget/page.tsx:76-81 | one entry per category, in category order, holding that category's amount total |
| BudgetPage.ChartCoversCategories | app/dashboard/budget/page.tsx:76-81 | over duplicate-free categories the chart values sum to the amount spent in those categories |
| BudgetPage.ChartSumsToTotal | app/dashboard/budget/page.tsx:73-81 | when every expense's category is listed, the chart values sum to `totalExpenses` |
| BudgetPage.BudgetManagement.constructor | app/dashboard/budget/page.tsx:23-28 | no expenses or categories, a blank form, budget 0, both filter fields empty |
| BudgetPage.BudgetManagement.Load | app/dashboard/budget/page.tsx:32-45 | the fetched expenses and budget are stored; categories become the distinct expense categories and cover every expense |
| BudgetPage.BudgetManagement.AddExpense | app/dashboard/budget/page.tsx:48-53 | one unpaid expense with the given id is appended unvalidated; the form is cleared |
| BudgetPage.BudgetManagement.UpdateExpense | app/dashboard/budget/page.tsx:55-58 | every expense with the id is replaced; length and order kept |
| BudgetPage.BudgetManagement.AddCategory | app/dashboard/budget/page.tsx:60-65 | categories become `WithCategory`; the input clears only when a name was added |
| VendorsPage.FilteredVendors | app/dashboard/vendors/page.tsx:64-68 | a vendor is shown iff (no category or equal) and (rating filter 0 or rating ≥ it); in-order subsequence keeping every matching occurrence |
| VendorsPage.InitialFilterShowsAllVendors | app/dashboard/vendors/page.tsx:31 | the initial filter shows every vendor |
| VendorsPage.RaisingRatingNarrows | app/dashboard/vendors/page.tsx:67 | raising a non-negative rating threshold keeps a subsequence of the previous result |
| VendorsPage.AllCategoryIsLiteral | app/dashboard/vendors/page.tsx:92 | the category entry "all" keeps only vendors whose category is literally "all" |
| VendorsPage.IntendedFilteredVendors | app/dashboard/vendors/page.tsx:64-68 | the filter with "all" read as no category restriction, keeping every matching occurrence in order |
| VendorsPage.IntendedAllShowsAllVendors | app/dashboard/vendors/page.tsx:92-105 | with that reading, "all" with rating 0 shows every vendor |
| VendorsPage.VendorManagement.constructor | app/dashboard/vendors/page.tsx:27-31 | no vendors or categories, a blank form, filter category "" and rating 0 |
| VendorsPage.VendorManagement.Load | app/dashboard/vendors/page.tsx:35-41 | the vendors are stored; categories become the distinct vendor categories |
| VendorsPage.VendorManagement.AddVendor | app/dashboard/vendors/page.tsx:45-50 | one vendor with rating 0 and the given id is appended; the form is cleared |
| VendorsPage.VendorManagement.UpdateVendor | app/dashboard/vendors/page.tsx:52-55 | every vendor with the id is replaced; length and order kept |
| VendorsPage.VendorManagement.AddCategory | app/dashboard/vendors/page.tsx:57-62 | categories become `WithCategory`; the input clears only when a name was added |
| TasksPage.FilteredTasks | app/dashboard/tasks/page.tsx:64-68 | a task is shown iff (no category or equal) and (no status filter or `String(completed)` equal to it); in-order subsequence keeping every matching occurrence |
| TasksPage.InitialFilterShowsAllTasks | app/dashboard/tasks/page.tsx:31 | the initial filter shows every task |
| TasksPage.AllCompletedShowsNothing | app/dashboard/tasks/page.tsx:105 | the status entry "all" hides every task |
| TasksPage.IntendedFilteredTasks | app/dashboard/tasks/page.tsx:64-68 | the filter with "all" read as no restriction, keeping every matching occurrence in order |
| TasksPage.IntendedAllShowsEveryTask | app/dashboard/tasks/page.tsx:92-105 | with that reading, "all"/"all" shows every task |
| TasksPage.CheckboxChangesOnlyThatTask | app/dashboard/tasks/page.tsx:132 | with distinct ids, ticking a task's checkbox changes only that task's completed flag |
| TasksPage.TaskManagement.constructor | app/dashboard/tasks/page.tsx:27-31 | no tasks or categories, a blank form, both filter fields empty |
| TasksPage.TaskManagement.Load | app/dashboard/tasks/page.tsx:35-41 | the tasks are stored; categories become the distinct task categories |
| TasksPage.TaskManagement.AddTask | app/dashboard/tasks/page.tsx:45-50 | one open task with the given id is appended; the form is cleared |
| TasksPage.TaskManagement.UpdateTask | app/dashboard/tasks/page.tsx:52-55 | every task with the id is replaced; length and order kept |
| TasksPage.TaskManagement.SetCompleted | app/dashboard/tasks/page.tsx:132 | the checkbox calls the update with the task's completed flag set |
| TasksPage.TaskManagement.AddCategory | app/dashboard/tasks/page.tsx:57-62 | categories become `WithCategory`; the input clears only when a name was added |
| GuestsPage.FilteredGuests | app/dashboard/guests/page.tsx:51-54 | a guest is shown iff (no group or equal) and (no RSVP or equal); in-order subsequence keeping every matching occurrence |
| GuestsPage.InitialFilterShowsAllGuests | app/dashboard/guests/page.tsx:32 | the initial filter shows every guest |
| GuestsPage.AllEntriesAreLiteral | app/dashboard/guests/page.tsx:73-94 | the group entry "all" keeps only a group literally named "all"; the RSVP entry "all" hides every guest with one of the three statuses |
| GuestsPage.IntendedFilteredGuests | app/dashboard/guests/page.tsx:51-54 | the filter with "all" read as no restriction, keeping every matching occurrence in order |
| GuestsPage.IntendedAllShowsAllGuests | app/dashboard/guests/page.tsx:73-94 | with that reading, "all"/"all" shows every guest and "all" with a status shows exactly that status |
| GuestsPage.GuestManagement.constructor | app/dashboard/guests/page.tsx:23-32 | an empty list, the blank form with RSVP "ממתין", no filter |
| GuestsPage.GuestManagement.AddGuest | app/dashboard/guests/page.tsx:34-45 | one guest built from the form and the id is appended without validation; the form resets to blanks with RSVP "ממתין" |
| GuestsPage.GuestManagement.UpdateGuest | app/dashboard/guests/page.tsx:47-49 | every guest with the id is replaced; length and order kept |
| BudgetItems.ValidDraft | components/budget.tsx:39 | the add guard; the cleared form never passes it |
| BudgetItems.TotalPlanned | components/budget.tsx:56 | with non-negative planned amounts the total is non-negative and at least each item's planned amount |
| BudgetItems.TotalDeposit | components/budget.tsx:57 | with non-negative deposits the total is non-negative and at least each item's deposit |
| BudgetItems.DepositsWithinPlanned | components/budget.tsx:56-57 | when no item's deposit exceeds its planned amount, the deposit total does not exceed the planned total |
| BudgetItems.TotalActual | components/budget.tsx:58 | the actual total counts a missing actual amount as 0, so items with none total 0 |
| BudgetItems.AddedItemTotals | components/budget.tsx:40-58 | an added item raises the planned and deposit totals by its amounts and leaves the actual total unchanged |
| BudgetItems.SampleTotals | lib/dummyData.ts:102-108 | the fixture items total 66000 planned, 33000 deposit, 0 actual |
| BudgetItems.BudgetCard.constructor | components/budget.tsx:27-28 | no items and a blank form |
| BudgetItems.BudgetCard.AddItem | components/budget.tsx:38-54 | without category, description and non-zero planned amount nothing changes; otherwise one item with no actual amount is appended and the form is cleared |
| Dashboard.Percentage | app/dashboard/page.tsx:43-45 | 0 when whole ≤ 0; otherwise the integer nearest to 100·part/whole, halves rounded up |
| Dashboard.PercentageExamples | app/dashboard/page.tsx:44 | (1,3)→33, (2,3)→67, (1,8)→13, (1,200)→1, (5,0)→0 |
| Dashboard.WholeIsHundred | app/dashboard/page.tsx:44 | part = whole > 0 gives 100 |
| Dashboard.PercentageInRange | app/dashboard/page.tsx:44 | 0 ≤ part ≤ whole gives a result in [0, 100] |
| Dashboard.PercentageMonotone | app/dashboard/page.tsx:44 | for a fixed positive whole the result does not decrease as part grows |
| Suppliers.FilteredSuppliers | app/dashboard/suppliers/page.tsx:36-43 | a supplier is kept iff price ≥ the price filter, rating ≥ the rating filter and the area filter is empty or equal; in-order subsequence keeping every matching occurrence |
| Suppliers.InitialFilterKeepsAll | app/dashboard/suppliers/page.tsx:20-22 | the initial filters keep every supplier with non-negative price and rating |
| Suppliers.RaisingThresholdsNarrows | app/dashboard/suppliers/page.tsx:38-39 | raising either threshold keeps a subsequence of the previous result |
| Suppliers.PriceIsAMinimum | app/dashboard/suppliers/page.tsx:38 | a supplier cheaper than the price filter is dropped |
| Collaborative.Toggled | app/dashboard/collaborative-planning/page.tsx:53-56 | the tasks with the id have their completed flag flipped; all else kept |
| Collaborative.ToggleTwice | app/dashboard/collaborative-planning/page.tsx:53-56 | toggling twice restores the list |
| Collaborative.Decided | app/dashboard/collaborative-planning/page.tsx:65-68 | the decisions with the id get the option as their choice; all else kept |
| Collaborative.DecideIdempotent | app/dashboard/collaborative-planning/page.tsx:65-68 | making the same decision twice equals making it once |
| Collaborative.LaterChoiceWins | app/dashboard/collaborative-planning/page.tsx:65-68 | a later choice overrides an earlier one |
| Collaborative.ChoiceIsNotChecked | app/dashboard/collaborative-planning/page.tsx:67 | an option outside the decision's options is accepted |
| Collaborative.CollaborativePlanning.constructor | app/dashboard/collaborative-planning/page.tsx:25-28 | no tasks or decisions; the decision form starts with two empty options |
| Collaborative.CollaborativePlanning.AddTask | app/dashboard/collaborative-planning/page.tsx:46-51 | one open task from the form is appended; the form resets to empty description and assignee |
| Collaborative.CollaborativePlanning.ToggleTask | app/dashboard/collaborative-planning/page.tsx:53-56 | the tasks become `Toggled` |
| Collaborative.CollaborativePlanning.AddDecision | app/dashboard/collaborative-planning/page.tsx:58-63 | one undecided decision from the form is appended; the form resets to topic "" with two empty options |
| Collaborative.CollaborativePlanning.MakeDecision | app/dashboard/collaborative-planning/page.tsx:65-68 | the decisions become `Decided` |
| Collaborative.CollaborativePlanning.EditOption | app/dashboard/collaborative-planning/page.tsx:126-130 | only the option at the index is replaced, in a copy |
| Collaborative.CollaborativePlanning.AddOption | app/dashboard/collaborative-planning/page.tsx:134 | exactly one empty option is appended to the form |
| Seating.RemoveAt | app/dashboard/seating/page.tsx:59 | `splice(k, 1)`: one shorter, and the removed guest plus the rest is the old multiset |
| Seating.InsertAt | app/dashboard/seating/page.tsx:60 | `splice(j, 0, x)`: one longer, x at position j (or at the end when j is past it), multiset grows by x |
| Seating.Move | app/dashboard/seating/page.tsx:59-60 | the move leaves the number of tables and every table other than source and destination unchanged |
| Seating.MovePreservesGuests | app/dashboard/seating/page.tsx:59-60 | a move preserves the multiset and the number of seated guests over all tables |
| Seating.MoveWithinTableIsPermutation | app/dashboard/seating/page.tsx:59-60 | a move within one table permutes its guest list |
| Seating.MoveBetweenTables | app/dashboard/seating/page.tsx:59-62 | between two tables, the source loses the guest, the destination gains it at the index and grows by one whatever its capacity |
| Seating.MoveExample | app/dashboard/seating/page.tsx:59-60 | A = [g1, g2], B = [g3], moving g1 to B at 0 gives A = [g2], B = [g1, g3] |
| Seating.Unassigned | app/dashboard/seating/page.tsx:108-109 | exactly the guests whose id is at no table, each occurrence kept, in original order |
| Seating.MoveKeepsUnassigned | app/dashboard/seating/page.tsx:59-60 | a move does not change the unassigned list |
| Seating.FindTable | app/dashboard/seating/page.tsx:55-56 | `tables.find` by id: the first table with the id, or none when no table has it |
| Seating.SeatingArrangement.constructor | app/dashboard/seating/page.tsx:23-25 | no tables or guests, a blank table form, and the table objects distinct |
| Seating.SeatingArrangement.AddTable | app/dashboard/seating/page.tsx:43-48 | one fresh table with the id, the form's name and capacity and no guests is appended; the form is cleared |
| Seating.SeatingArrangement.OnDragEnd | app/dashboard/seating/page.tsx:50-64 | no destination, or a source or destination that is not a table, changes nothing; otherwise the guest lists become `Move` of the old ones |
| Seating.SeatingArrangement.MoveGuest | app/dashboard/seating/page.tsx:59-62 | the two splices change the tables' guest lists in place to `Move` of the old ones |
| Seating.SeatingArrangement.UnassignedGuests | app/dashboard/seating/page.tsx:108-109 | the guests shown as unassigned are exactly those seated at no table, each occurrence kept |
| SupportChat.FirstMatch | components/support-chat.tsx:121-147 | a topic is returned only for a rule that matches |
| SupportChat.FirstMatchIsFirst | components/support-chat.tsx:121-147 | when rule i matches and no earlier rule does, rule i's topic is returned |
| SupportChat.NoMatchNoReply | components/support-chat.tsx:121-147 | when no rule matches no topic is returned |
| SupportChat.GetResponse | components/support-chat.tsx:117-151 | the reply is the reply of a matching rule or one of the four general replies |
| SupportChat.DefaultReply | components/support-chat.tsx:150 | with no keyword the reply is the picked general reply |
| SupportChat.ThanksBeatsBudget | components/support-chat.tsx:125-131 | a message with thanks and no greeting gets the thanks reply even if it also mentions the budget |
| SupportChat.GreetingFirst | components/support-chat.tsx:121-123 | a message with a greeting gets the greeting reply whatever else it mentions |
| SupportChat.ThanksForTheBudget | components/support-chat.tsx:125-131 | "תקציב? תודה" gets the thanks reply |
| SupportChat.FindQuestion | components/support-chat.tsx:93 | the suggested question with the id, or none when no question has it |
| SupportChat.FaqAnswer | components/support-chat.tsx:109 | a non-empty stored answer for the id is returned; otherwise the result is the fallback text |
| SupportChat.SuggestedQuestionsAnswered | components/support-chat.tsx:24-38 | every suggested question has a stored answer |
| SupportChat.SendExchange | components/support-chat.tsx:67-90 | blank input adds nothing; otherwise the user's message with the input, then the bot's reply to it |
| SupportChat.QuestionExchange | components/support-chat.tsx:92-115 | an unknown id adds nothing; a known one adds the question text as the user's message, then its FAQ answer |
| SupportChat.Chat.constructor | components/support-chat.tsx:50-58 | the log starts with the welcome message alone and the input is empty |
| SupportChat.Chat.SetInput | components/support-chat.tsx:257 | the send box holds the typed text |
| SupportChat.Chat.HandleSend | components/support-chat.tsx:67-90 | the log is the old log followed by `SendExchange`; the input clears unless it was blank |
| SupportChat.Chat.HandleQuestionClick | components/support-chat.tsx:92-115 | the log is the old log followed by `QuestionExchange` |
| Translation.Placeholder | hooks/useTranslation.ts:29 | `{{key}}` starts with `{{` and is four characters longer than the key |
| Translation.Lookup | hooks/useTranslation.ts:25 | a non-empty translation wins; a missing or empty one falls back to the key, so the result is empty only for the empty key |
| Translation.ReplaceAll | hooks/useTranslation.ts:29 | replacing the pattern by itself leaves the text unchanged; a value as long as the pattern keeps the length |
| Translation.ApplyVars | hooks/useTranslation.ts:28-30 | variables whose values are their own placeholders leave the text unchanged; values as long as their placeholders keep its length |
| Translation.Translate | hooks/useTranslation.ts:24-34 | the loop leaves the text equal to the lookup with every entry's replacement applied in entry order |
| Translation.NoVariablesKeepText | hooks/useTranslation.ts:27 | without variables the looked-up text is returned unchanged |
| Translation.ReplaceAllAbsent | hooks/useTranslation.ts:29 | a text without the pattern is returned unchanged |
| Translation.NoPlaceholderUnchanged | hooks/useTranslation.ts:28-30 | a text with no `{{` is returned unchanged whatever the variables |
| Translation.ReplaceAfterPlain | hooks/useTranslation.ts:29 | the next occurrence is replaced and replacement continues after it |
| Translation.EveryOccurrenceReplaced | hooks/useTranslation.ts:29 | both occurrences in "{{name}} ו{{name}}" are replaced |
| Translation.ChainedSubstitution | hooks/useTranslation.ts:28-30 | a value holding `{{first}}` is filled in by the later entry `first` |
| Translation.NoPlaceholderRemains | hooks/useTranslation.ts:29 | after substituting a non-empty value sharing no character with the placeholder, none remains |
| Translation.PlaceholderCanReappear | hooks/useTranslation.ts:29 | "{{a{{a}}" with a = "}}" becomes "{{a}}": a value without the placeholder can still produce one |

## Left out

- Persistence is left out: local storage, `saveToLocalStorage`/`getFromLocalStorage`, and the language saved in the document. The load effects take the fetched or stored data as a parameter.
- The `fetch` calls and the dashboard's simulated loading are left out. So are toasts, dialogs, tabs, scrolling and rendering.
- The spreadsheet library and `FileReader` are not part of this model. Only the row-to-guest and guest-to-row field mappings are modelled, with a cell as an optional value.
- The chat's `setTimeout` is left out: the bot's reply is appended at once, right after the user's message.
- Message timestamps are left out.
- `Date.now()` ids are parameters and are not assumed unique. So is `Math.random()`, as the index of the general reply.
- `toLowerCase` is modelled on ASCII letters only; Hebrew text has no case. `trim` is modelled with the ECMAScript WhiteSpace and LineTerminator code points.
- Amounts and counts are unbounded integers. Float division and the progress-bar percentages in the budget card are left out.
- BudgetPage.DraftToExpense: an amount never typed into the form is 0 in the model. In the source, `{ ...newExpense, id, paid }` (app/dashboard/budget/page.tsx:50) leaves `amount` undefined. One such expense makes `totalExpenses`, `remainingBudget` and that category's chart value `NaN` (lines 73-81). The model's totals stay integers.
- Dashboard.Percentage: rounds the exact ratio 100·part/whole, half up. The source rounds the IEEE double `(part / whole) * 100`, which can fall just below a half. Then the source gives one less: (57, 200) is 28.499999999999996 in doubles, so the source shows 28 where the model gives 29.
- Form drafts (`Partial<T>`) are records in which an untouched field is "" or 0. The source's truthiness tests treat these as missing. Where a page spreads an incomplete draft into a record, the model's record holds "" or 0 in the missing fields.
- The translation tables of lib/translations.ts are not part of this model; the table is a parameter. `changeLanguage` is left out.
- An absent `variables` argument is modelled as an empty list of entries.
- `ReplaceAll` treats the key and the value literally. Regular-expression metacharacters in a key and `$` patterns in a value are not modelled.
- Seating drop indices come from the drag library. The model requires the source index to exist, and clamps the destination index as `splice` does.
- Seating tables are assumed to be distinct objects.
- A seating move is not a move by guest id. The code (app/dashboard/seating/page.tsx:55-60) moves whatever guest is at the drag's source position, and the model follows the code.
- SupportChat.SuggestedQuestionsAnswered: proves only that each suggested id has an entry. It does not prove that the stored answer is non-empty, which would make the fallback unreachable for suggested questions. Reasoning about the long answer texts exceeds the solver budget.
- Translation.NoPlaceholderRemains: the stated property is narrower than "no `{{name}}` remains after substituting a value without it". That wider property is false, as `Translation.PlaceholderCanReappear` shows. The model proves it only for a non-empty value that shares no character with the placeholder.
- The social-sharing, website-builder, virtual-planner, settings and layout pages are not part of this model.

## Findings

| source | as written | input that shows it | evidently intended | confidence | as-written member | corrected member |
|---|---|---|---|---|---|---|
| app/dashboard/budget/page.tsx:178 | the payment select's "all" entry is compared with `String(paid)` | any expense list with the paid filter "all" | "all" shows every expense | not executed | BudgetPage.AllPaidShowsNothing | BudgetPage.IntendedFilteredExpenses |
| app/dashboard/tasks/page.tsx:105 | the status select's "all" entry is compared with `String(completed)` | any task list with the status filter "all" | "all" shows every task | not executed | TasksPage.AllCompletedShowsNothing | TasksPage.IntendedFilteredTasks |
| app/dashboard/vendors/page.tsx:92 | the category select's "all" entry is compared with the category | vendors of category "אולם" with the category filter "all" | "all" shows every category | not executed | VendorsPage.AllCategoryIsLiteral | VendorsPage.IntendedFilteredVendors |
| app/dashboard/guests/page.tsx:89 | the RSVP select's "all" entry is compared with the status | any guest with status "ממתין" and the RSVP filter "all" | "all" shows every guest | not executed | GuestsPage.AllEntriesAreLiteral | GuestsPage.IntendedFilteredGuests |
