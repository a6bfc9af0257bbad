/**
 The MyExpenses component as a state machine: the form draft and the list
 of expenses shown in the table, and the transitions of its three handlers
 (post, fetch, delete) and of the form's setters. Every server answer is a
 parameter of the transition that receives it.
 */
module MyExpenses {
  import opened ExpenseForm
  import opened Splice

  /** What the component holds: the form and the list shown in the table. */
  datatype State = State(draft: Draft, expenses: seq<Expense>)

  /** How a POST ended. `response.ok` gives `Ok`; a non-2xx status and a
      rejected `fetch` both end in the same `catch`, and are `Failed`. */
  datatype Response = Ok | Failed

  /** How the GET ended: the parsed list, or a failure (rejected `fetch`,
      non-2xx status, or a body that does not parse). */
  datatype FetchResponse = Fetched(data: seq<Expense>) | FetchFailed

  /** The browser alert a transition raises, if any. */
  datatype Alert = NoAlert | Alert(message: string)

  /** The state after a transition, with the alert it raised. */
  datatype Step = Step(state: State, alert: Alert)

  const CreatedMessage := "Expense created successfully"
  const CreateFailedMessage := "Failed to create expense"
  const FetchFailedMessage := "Failed to fetch expenses"
  const DeletedMessage := "Expense deleted successfully"
  const DeleteFailedMessage := "Failed to delete expense"

  /** The state on mount: every field at its initial value, no expenses. */
  const Initial := State(EmptyDraft, [])

  /** The list a post sends, and adopts on success: the current list with
      the draft's record appended. */
  function PostBody(s: State): (b: seq<Expense>)
    ensures |b| == |s.expenses| + 1
    ensures b[..|s.expenses|] == s.expenses
    ensures var e := b[|s.expenses|];
      && e.name == s.draft.name
      && e.amount == s.draft.amount
      && e.kind == s.draft.kind
      && e.shortNote == s.draft.shortNote
      && e.transactionDate == s.draft.transactionDate
  {
    s.expenses + [RecordOf(s.draft)]
  }

  /** The list a delete of row `index` sends, and adopts on success. */
  function DeleteBody(s: State, index: int): (b: seq<Expense>)
    ensures 0 <= index < |s.expenses| ==> b == s.expenses[..index] + s.expenses[index + 1..]
    ensures 0 <= index < |s.expenses| ==> |b| == |s.expenses| - 1
    ensures index >= |s.expenses| ==> b == s.expenses
  {
    RemoveOne(s.expenses, index)
  }

  /** `handlePostExpense`: sends the current list with the draft appended.
      On success the component adopts that list and clears the form; on
      failure nothing changes. */
  function PostExpense(s: State, resp: Response): (r: Step)
    ensures resp.Ok? ==>
      && r.state.expenses == PostBody(s)
      && (forall f :: AtDefault(r.state.draft, f))
      && !SubmitEnabled(r.state.draft)
      && r.alert == Alert(CreatedMessage)
    ensures resp.Failed? ==> r.state == s && r.alert == Alert(CreateFailedMessage)
  {
    var updated := PostBody(s);
    match resp
    case Ok => Step(State(EmptyDraft, updated), Alert(CreatedMessage))
    case Failed => Step(s, Alert(CreateFailedMessage))
  }

  /** `fetchExpenses`: on success the list becomes exactly the server's
      data; on failure it is kept. The draft is never touched. */
  function FetchExpenses(s: State, resp: FetchResponse): (r: Step)
    ensures r.state.draft == s.draft
    ensures resp.Fetched? ==> r.state.expenses == resp.data && r.alert == NoAlert
    ensures resp.FetchFailed? ==> r.state.expenses == s.expenses && r.alert == Alert(FetchFailedMessage)
  {
    match resp
    case Fetched(data) => Step(s.(expenses := data), NoAlert)
    case FetchFailed => Step(s, Alert(FetchFailedMessage))
  }

  /** `handleDeleteExpense(index)`: sends the list with row `index` spliced
      out, and adopts it only on success. The draft is never touched. */
  function DeleteExpense(s: State, index: int, resp: Response): (r: Step)
    ensures r.state.draft == s.draft
    ensures resp.Ok? ==> r.state.expenses == DeleteBody(s, index) && r.alert == Alert(DeletedMessage)
    ensures resp.Ok? && 0 <= index < |s.expenses| ==>
      && |r.state.expenses| == |s.expenses| - 1
      && (forall j :: 0 <= j < index ==> r.state.expenses[j] == s.expenses[j])
      && (forall j :: index <= j < |r.state.expenses| ==> r.state.expenses[j] == s.expenses[j + 1])
    ensures resp.Failed? ==> r.state.expenses == s.expenses && r.alert == Alert(DeleteFailedMessage)
  {
    var updated := DeleteBody(s, index);
    match resp
    case Ok => Step(s.(expenses := updated), Alert(DeletedMessage))
    case Failed => Step(s, Alert(DeleteFailedMessage))
  }

  /** An `onChange` of one input: the edited field takes the new value, the
      other four fields and the list are kept. */
  function EditDraft(s: State, e: Edit): (r: State)
    ensures r.expenses == s.expenses
    ensures Shows(r.draft, e)
    ensures forall f :: f != Target(e) ==> SameField(r.draft, s.draft, f)
  {
    s.(draft := ApplyEdit(s.draft, e))
  }

  /** A click on "Post Expense": a disabled button does nothing, an enabled
      one runs the post handler. A successful click keeps every earlier row,
      appends a record none of whose fields is at its sentinel and clears the
      form, so a list of such records stays so; a failed one changes nothing. */
  function ClickPost(s: State, resp: Response): (r: Step)
    ensures !SubmitEnabled(s.draft) ==> r.state == s && r.alert == NoAlert
    ensures SubmitEnabled(s.draft) ==> r == PostExpense(s, resp)
    ensures SubmitEnabled(s.draft) && resp.Ok? ==>
      && |r.state.expenses| == |s.expenses| + 1
      && r.state.expenses[..|s.expenses|] == s.expenses
      && Complete(r.state.expenses[|s.expenses|])
      && r.state.draft == EmptyDraft
    ensures SubmitEnabled(s.draft) && resp.Failed? ==> r.state == s && r.alert == Alert(CreateFailedMessage)
    ensures (forall i :: 0 <= i < |s.expenses| ==> Complete(s.expenses[i])) ==>
      forall i :: 0 <= i < |r.state.expenses| ==> Complete(r.state.expenses[i])
  {
    if SubmitEnabled(s.draft) then PostExpense(s, resp) else Step(s, NoAlert)
  }

  /** The component starts with every field at its default, an empty list,
      and the button disabled (the stored `isButtonDisabled` starts `true`). */
  lemma InitialDisabled()
    ensures forall f :: AtDefault(Initial.draft, f)
    ensures Initial.expenses == []
    ensures !SubmitEnabled(Initial.draft)
  {
    EmptyDraftDisabled();
  }

  /** A successful delete at a row inside the list removes exactly that
      row: the rest keep their relative order and nothing is duplicated. */
  lemma DeleteRemovesExactlyRow(s: State, index: int)
    requires 0 <= index < |s.expenses|
    ensures var l := DeleteExpense(s, index, Ok).state.expenses;
      && IsSubsequence(l, s.expenses)
      && multiset(s.expenses) == multiset(l) + multiset{s.expenses[index]}
  {
    RemoveOneInRange(s.expenses, index);
    RemoveOneMultiset(s.expenses, index);
  }

  /** A successful delete keeps the list free of records with sentinel fields. */
  lemma DeleteKeepsComplete(s: State, index: int, resp: Response)
    requires forall i :: 0 <= i < |s.expenses| ==> Complete(s.expenses[i])
    ensures var l := DeleteExpense(s, index, resp).state.expenses;
      forall i :: 0 <= i < |l| ==> Complete(l[i])
  {
  }

  /** Deleting the row a successful post just appended gives back the list
      from before the post. */
  lemma PostThenDeleteRestoresList(s: State)
    ensures var p := PostExpense(s, Ok).state;
      DeleteExpense(p, |s.expenses|, Ok).state.expenses == s.expenses
  {
    RemoveLastUndoesAppend(s.expenses, RecordOf(s.draft));
  }

  /** Fetching twice from a server that did not change gives the same list
      as fetching once. */
  lemma FetchIdempotent(s: State, resp: FetchResponse)
    ensures var once := FetchExpenses(s, resp).state;
      FetchExpenses(once, resp).state == once
  {
  }

  /** A failure of any of the three handlers leaves the whole state, list
      and draft, as it was. */
  lemma FailureChangesNothing(s: State, index: int)
    ensures PostExpense(s, Failed).state == s
    ensures DeleteExpense(s, index, Failed).state == s
    ensures FetchExpenses(s, FetchFailed).state == s
  {
  }

  /** Mount fetches an empty list, then a filled-in draft is posted and the
      server accepts it: the list becomes that single record and the form
      is cleared. */
  lemma CoffeeScenario()
    ensures var d := Draft("Coffee", Num(4.5), Debit, "morning", "2024-01-01");
      var mounted := FetchExpenses(Initial, Fetched([])).state;
      var typed := mounted.(draft := d);
      var posted := PostExpense(typed, Ok);
      && mounted.expenses == []
      && SubmitEnabled(d)
      && posted.state.expenses == [Expense("Coffee", Num(4.5), Debit, "morning", "2024-01-01")]
      && posted.state.draft == EmptyDraft
      && posted.alert == Alert(CreatedMessage)
  {
  }

  /** Deleting row 1 of three rows sends the other two in their order; when
      the server refuses, the list keeps all three and an alert is raised. */
  lemma RefusedDeleteScenario(s: State)
    requires |s.expenses| == 3
    ensures DeleteBody(s, 1) == [s.expenses[0], s.expenses[2]]
    ensures var r := DeleteExpense(s, 1, Failed);
      r.state.expenses == s.expenses && r.alert == Alert(DeleteFailedMessage)
  {
  }
}
