# MyExpenses component — a Dafny model

TrackMyExpenses is a single-page React view. A named user fills in an expense
form (name, amount, type, short note, transaction date) and posts it. The view
shows the user's expenses in a table with a Delete button on each row. The
server is a plain list store: every create and every delete sends the whole
resulting list in one POST. The component only adopts that list after the
server answers with a 2xx status.

This project models the component as an immutable state machine.

- `ExpenseForm` (`expense_form.dfy`) holds the draft's five fields and the
  type drop-down (`SelectType | Credit | Debit`). It also holds the amount:
  a finite `Num(real)`, `Infinite`, `NaN` (what `parseFloat` leaves in the
  field), or `Null` (what JSON makes of NaN and infinities). It defines the
  enable rule of the "Post Expense" button and the setters.
- `Splice` (`splice.dfy`) gives `splice(start, 1)` on a copy of the list,
  with the start-index rules of the ECMAScript Language Specification
  (section 23.1.3.31). A negative index counts from the end. An index past
  the end removes nothing.
- `MyExpenses` (`my_expenses.dfy`) holds the component state: the draft plus
  a `seq<Expense>`. It defines the transitions of `handlePostExpense`,
  `fetchExpenses` and `handleDeleteExpense`, the field setters and the button
  click. Each transition takes the server's answer as a parameter and returns
  the new state together with the browser alert it raises. The alert texts
  are the component's own.
- `Sync` (`sync.dfy`) pairs the component with the list the server stores,
  and follows a trace of user events through both.
  - It assumes a request either reaches the server or is lost. A request
    that reaches the server is stored (POST) or answered with the stored list
    (GET), with a 2xx status. A lost request leaves the server's list as it was.
  - A POST body goes through `JSON.stringify`, which writes NaN and the
    infinities as `null`. So the server stores the JSON form of the list
    (`Wire`), not the list itself.
  - The invariant: once a fetch has succeeded, the server always stores the
    JSON form of the list the table shows. The two lists are equal exactly
    when the table holds no NaN or infinite amount.
  - An emptied amount field enables the button (NaN is not strictly equal
    to 0), so they can differ: `NaNPostBreaksMirror` exhibits a post after
    which the table shows NaN while the server stores `null`.
  - The invariant needs the mount fetch to succeed. When it fails the table
    stays empty, and the next delivered post sends a one-record list that
    replaces everything the server held: `FailedMountThenPostOverwrites`.
  - The server's behaviour is not part of the component's source; it is the
    environment the invariant needs.

Notes on the code as written:

- `handlePostExpense` checks nothing itself; only the disabled button guards
  it. So `PostExpense` takes any draft, and `ClickPost` adds the guard.
- `handleDeleteExpense` splices whatever index it receives. `DeleteExpense`
  takes any `int` and follows `splice` exactly. The case of an index that
  names a row is proved as a consequence.
- An emptied amount field holds NaN. Because the comparison with 0 is strict,
  NaN enables the button (`NaNAmountEnables`). The model keeps this behaviour
  as written.

## Model

| member | source | states |
|---|---|---|
| ExpenseForm.SubmitEnabled | frontend/src/components/myexpenses.component.js:20-26 | An enabled draft has Credit or Debit as its type and is never the initial draft; the full characterisation is `SubmitEnabledIffNoFieldAtDefault` |
| ExpenseForm.RecordOf | frontend/src/components/myexpenses.component.js:41-47 | The record built from the draft copies its five fields one for one, and has no field at its sentinel exactly when the draft enables the button |
| ExpenseForm.SubmitEnabledIffNoFieldAtDefault | frontend/src/components/myexpenses.component.js:20-26 | The button is enabled exactly when none of the five fields holds its initial value; the strict amount comparison agrees with "amount is not its initial 0" |
| ExpenseForm.OneDefaultFieldDisables | frontend/src/components/myexpenses.component.js:20-26 | Any single field at its initial value keeps the button disabled |
| ExpenseForm.ResetFieldDisables | frontend/src/components/myexpenses.component.js:20-26 | Putting any one field back to its initial value disables the button, whatever the other fields hold |
| ExpenseForm.EmptyDraftDisabled | frontend/src/components/myexpenses.component.js:10-15 | The initial draft has every field at its default and the button disabled |
| ExpenseForm.NaNAmountEnables | frontend/src/components/myexpenses.component.js:20-26 | A NaN amount (from `parseFloat` of an emptied field) is not equal to 0, so with the other four fields set the button is enabled |
| ExpenseForm.ApplyEdit | frontend/src/components/myexpenses.component.js:140-181 | A setter writes its new value into its own field and leaves the other four fields as they were |
| ExpenseForm.ResetEdit | frontend/src/components/myexpenses.component.js:62-66 | The clearing setter for each field targets that field and writes its initial value |
| Splice.ActualStart | frontend/src/components/myexpenses.component.js:103 | `splice` acts at the given index when it is inside the array; a negative index counts from the end and stops at 0; an index past the end stops at the end |
| Splice.RemoveOne | frontend/src/components/myexpenses.component.js:102-103 | Copy-then-splice removes at most one element: earlier elements keep their index, later ones move down by one, and the length drops by one exactly when the index reaches an element |
| Splice.CopyWithout | frontend/src/components/myexpenses.component.js:102-103 | Copying the list element by element and skipping the element at the start index gives the same list as the splice |
| Splice.RemoveOneInRange | frontend/src/components/myexpenses.component.js:101-103 | For 0 <= i < n the result is L[..i] + L[i+1..], one shorter, and a subsequence of L (relative order kept) |
| Splice.RemoveOneMultiset | frontend/src/components/myexpenses.component.js:101-103 | Removing at an index inside the list removes exactly that element: nothing is lost or duplicated |
| Splice.RemoveOneOutOfRange | frontend/src/components/myexpenses.component.js:103 | An index at or past the end leaves the list unchanged |
| Splice.RemoveOneNegative | frontend/src/components/myexpenses.component.js:103 | A negative index -k with k <= n removes the element k places from the end |
| Splice.RemoveOneTooNegative | frontend/src/components/myexpenses.component.js:103 | An index below -n removes the first element |
| Splice.RemoveLastUndoesAppend | frontend/src/components/myexpenses.component.js:101-103 | Splicing out the last element undoes an append |
| MyExpenses.PostBody | frontend/src/components/myexpenses.component.js:41-49 | The list a post sends is one longer than the current list, keeps every earlier element, and ends with a record whose five fields equal the draft's |
| MyExpenses.DeleteBody | frontend/src/components/myexpenses.component.js:101-103 | The list a delete sends is the current list with row i cut out when i is a row, and the unchanged list when i is past the end |
| MyExpenses.PostExpense | frontend/src/components/myexpenses.component.js:40-77 | On success the list becomes exactly the list sent, every field is back at its default, the button is disabled, and the success alert is raised; on failure state is unchanged and the failure alert is raised |
| MyExpenses.FetchExpenses | frontend/src/components/myexpenses.component.js:79-95 | On success the list becomes exactly the server's data with no alert; on failure the list is kept and the failure alert is raised; the draft is never touched |
| MyExpenses.DeleteExpense | frontend/src/components/myexpenses.component.js:101-125 | On success the list becomes the list sent; for a row index the length drops by one and elements before and after keep their order; on failure the list is kept and the failure alert is raised; the draft is never touched |
| MyExpenses.EditDraft | frontend/src/components/myexpenses.component.js:140-181 | An input's change writes only its own field and never touches the list |
| MyExpenses.ClickPost | frontend/src/components/myexpenses.component.js:184-186 | A disabled button does nothing; an enabled click is the post handler: on success it keeps every earlier row, appends a record with no sentinel field and clears the form, on failure it changes nothing; a list without sentinel fields stays so |
| MyExpenses.InitialDisabled | frontend/src/components/myexpenses.component.js:10-16 | The component starts with every field at its default, an empty list, and the button disabled |
| MyExpenses.DeleteRemovesExactlyRow | frontend/src/components/myexpenses.component.js:101-116 | A successful delete of a row leaves a subsequence of the old list missing exactly that row |
| MyExpenses.DeleteKeepsComplete | frontend/src/components/myexpenses.component.js:101-116 | Deleting never brings a record with a sentinel field into the list |
| MyExpenses.PostThenDeleteRestoresList | frontend/src/components/myexpenses.component.js:40-125 | Deleting the row a successful post appended gives back the list from before the post |
| MyExpenses.FetchIdempotent | frontend/src/components/myexpenses.component.js:79-95 | Fetching twice from an unchanged server gives the same list as fetching once |
| MyExpenses.FailureChangesNothing | frontend/src/components/myexpenses.component.js:40-125 | A failed post, delete or fetch leaves the whole state unchanged |
| MyExpenses.CoffeeScenario | frontend/src/components/myexpenses.component.js:40-95 | Mount with an empty list, then post a filled-in draft the server accepts: the list is that one record and the form is cleared |
| MyExpenses.RefusedDeleteScenario | frontend/src/components/myexpenses.component.js:101-125 | Deleting row 1 of three sends rows 0 and 2 in order; a refused delete keeps all three rows and raises the failure alert |
| Sync.WireAmount | frontend/src/components/myexpenses.component.js:56 | Serialising an amount as JSON keeps finite numbers and `null` unchanged, and turns NaN and both infinities into `null` |
| Sync.WireExpense | frontend/src/components/myexpenses.component.js:56 | Serialising a record as JSON changes at most its amount |
| Sync.Wire | frontend/src/components/myexpenses.component.js:56 | The JSON form of a list has the same length and holds the JSON form of each element at the same index |
| Sync.WireFixedIff | frontend/src/components/myexpenses.component.js:56 | A list survives JSON unchanged exactly when no amount is NaN or infinite; JSON is idempotent |
| Sync.Apply | frontend/src/components/myexpenses.component.js:40-125 | The server stores the JSON form of exactly the list a delivered post or delete sent, and the component adopts that list in memory; a delivered fetch shows the stored list; a click on the disabled button changes nothing; typing and lost requests change neither list; typing writes its field of the form, a delivered post from an enabled form clears the form, and every other event keeps the form as it was |
| Sync.Run | frontend/src/components/myexpenses.component.js:40-125 | Applying events in order, the server's list changes only through delivered posts and deletes |
| Sync.ApplyKeepsInStep | frontend/src/components/myexpenses.component.js:40-125 | If the server stores the JSON form of the table's list, it still does after any one event |
| Sync.DeliveredFetchMirrors | frontend/src/components/myexpenses.component.js:79-95 | A delivered fetch makes the table show exactly the server's list, and puts the two in step when the server holds a JSON list |
| Sync.RunKeepsInStep | frontend/src/components/myexpenses.component.js:40-125 | If the server stores the JSON form of the table's list, it still does after any sequence of events |
| Sync.MountedStaysInStep | frontend/src/components/myexpenses.component.js:97-99 | After a mount whose fetch succeeded, whatever events follow, the server stores the JSON form of the table's list, and the table equals the server's list exactly when it holds no NaN or infinite amount |
| Sync.NaNPostBreaksMirror | frontend/src/components/myexpenses.component.js:20-68 | With the amount field emptied and the rest filled in, a delivered post leaves NaN in the table and `null` on the server |
| Sync.FailedMountThenPostOverwrites | frontend/src/components/myexpenses.component.js:49-99 | After a lost mount fetch, filling in the form and a delivered post leave the server storing only the posted record, whatever list it held before |
| Sync.RunAppend | frontend/src/components/myexpenses.component.js:40-125 | Running two event sequences one after the other is running their concatenation |
| Sync.DroppedRequestsKeepList | frontend/src/components/myexpenses.component.js:69-181 | Typing and lost requests change neither the list shown nor the list stored |

## Left out

- HTTP `fetch` and the URL built from `username` are left out: they are network I/O. Every server answer is a parameter (`Response`, `FetchResponse`). JSON is modelled only as `Sync.Wire` (what a round trip does to amounts). A body that fails to parse is folded into `FetchFailed`.
- `alert` is modelled only as the message a transition returns. `console.error` is left out because it is diagnostic output.
- `handleLogout` is left out. It uses `window.confirm`, `alert` and `window.location`, and it holds no state.
- React scheduling is left out: `useEffect`, `useCallback`, re-render timing and JSX rendering. So is the one-render lag of the stored `isButtonDisabled` flag behind the fields. The flag is modelled as the derived `SubmitEnabled`. Its initial stored value `true` agrees with the derived value on the initial draft.
- Overlapping requests are left out (a double click, a stale `expenses` captured by the closure). Transitions are atomic and sequential.
- `parseFloat` and floating-point arithmetic are left out. The amount is a finite `Num(real)`, `Infinite`, `NaN` or `Null`. A type string other than `"Credit"`/`"Debit"` arriving from the server is not modelled; server types are folded into `Kind`.
- JSON serialisation changes only amounts in `Sync.Wire`; strings and the type survive it unchanged.
- Sync.Apply: assumes a failed POST was not stored by the server. The case where the server stores the list but the response is lost breaks the invariant, and it is not modelled.
- MountedStaysInStep: requires the server's initial list to be in JSON form (no NaN or infinite amount), since it was parsed from JSON.
