/**
 The expense form of the MyExpenses page: the five values a user types in,
 the record built from them, and the rule that enables the "Post Expense"
 button.
 */
module ExpenseForm {

  /** The options of the type drop-down. `SelectType` is the sentinel that
      means "no type chosen yet". */
  datatype Kind = SelectType | Credit | Debit

  /** An amount. The field holds whatever `parseFloat` returned for the text
      in the input: a finite number, an infinity (text such as "1e999"), or
      NaN (an emptied or unparsable field). A record read back from the
      server can also hold `null`, which is what JSON makes of NaN and of
      the infinities. Only the strict comparison with 0 matters to the form. */
  datatype Amount = Num(value: real) | Infinite(negative: bool) | NaN | Null

  /** JavaScript `amount === 0`: NaN, the infinities and `null` are not
      equal to 0, and -0 and 0 are both the real 0.0 here. */
  predicate IsZero(a: Amount) {
    a.Num? && a.value == 0.0
  }

  /** One expense as kept in the list and sent to the server. */
  datatype Expense = Expense(name: string, amount: Amount, kind: Kind, shortNote: string, transactionDate: string)

  /** The five form fields, not yet submitted. */
  datatype Draft = Draft(name: string, amount: Amount, kind: Kind, shortNote: string, transactionDate: string)

  /** Names the five fields, so that properties can speak of "any one field". */
  datatype Field = NameField | AmountField | KindField | NoteField | DateField

  /** The values the fields start from, and return to after a successful post. */
  const EmptyDraft := Draft("", Num(0.0), SelectType, "", "")

  /** The enable rule of the "Post Expense" button, written as the component
      writes it: every field compared with its sentinel, amount strictly.
      An enabled draft has a chosen type and is never the initial draft. */
  predicate SubmitEnabled(d: Draft)
    ensures SubmitEnabled(d) ==> d.kind.Credit? || d.kind.Debit?
    ensures SubmitEnabled(d) ==> d != EmptyDraft
  {
    && d.name != ""
    && !IsZero(d.amount)
    && d.kind != SelectType
    && d.shortNote != ""
    && d.transactionDate != ""
  }

  /** Field `f` of `d` still holds its initial value. */
  predicate AtDefault(d: Draft, f: Field) {
    match f
    case NameField => d.name == EmptyDraft.name
    case AmountField => d.amount == EmptyDraft.amount
    case KindField => d.kind == EmptyDraft.kind
    case NoteField => d.shortNote == EmptyDraft.shortNote
    case DateField => d.transactionDate == EmptyDraft.transactionDate
  }

  /** Field `f` holds the same value in `a` and in `b`. */
  predicate SameField(a: Draft, b: Draft, f: Field) {
    match f
    case NameField => a.name == b.name
    case AmountField => a.amount == b.amount
    case KindField => a.kind == b.kind
    case NoteField => a.shortNote == b.shortNote
    case DateField => a.transactionDate == b.transactionDate
  }

  /** One `onChange` of an input: the setter it calls and the new value. */
  datatype Edit =
    | SetName(name: string)
    | SetAmount(amount: Amount)
    | SetKind(kind: Kind)
    | SetShortNote(shortNote: string)
    | SetTransactionDate(transactionDate: string)

  /** The field an edit writes. */
  function Target(e: Edit): Field {
    match e
    case SetName(_) => NameField
    case SetAmount(_) => AmountField
    case SetKind(_) => KindField
    case SetShortNote(_) => NoteField
    case SetTransactionDate(_) => DateField
  }

  /** Field `f` of `d` holds the value that edit `e` writes. */
  predicate Shows(d: Draft, e: Edit) {
    match e
    case SetName(v) => d.name == v
    case SetAmount(v) => d.amount == v
    case SetKind(v) => d.kind == v
    case SetShortNote(v) => d.shortNote == v
    case SetTransactionDate(v) => d.transactionDate == v
  }

  /** Applies one setter to the draft. */
  function ApplyEdit(d: Draft, e: Edit): (r: Draft)
    ensures Shows(r, e)
    ensures forall f :: f != Target(e) ==> SameField(r, d, f)
  {
    match e
    case SetName(v) => d.(name := v)
    case SetAmount(v) => d.(amount := v)
    case SetKind(v) => d.(kind := v)
    case SetShortNote(v) => d.(shortNote := v)
    case SetTransactionDate(v) => d.(transactionDate := v)
  }

  /** The edit that puts field `f` back to its initial value. */
  function ResetEdit(f: Field): (e: Edit)
    ensures Target(e) == f
    ensures Shows(EmptyDraft, e)
  {
    match f
    case NameField => SetName("")
    case AmountField => SetAmount(Num(0.0))
    case KindField => SetKind(SelectType)
    case NoteField => SetShortNote("")
    case DateField => SetTransactionDate("")
  }

  /** Every field of a stored expense differs from its form sentinel: the
      record would pass the enable rule if it were typed into the form. */
  predicate Complete(e: Expense) {
    SubmitEnabled(Draft(e.name, e.amount, e.kind, e.shortNote, e.transactionDate))
  }

  /** The record `handlePostExpense` builds from the draft: each of its five
      fields is the draft's field of the same name, so it is free of
      sentinels exactly when the draft would enable the button. */
  function RecordOf(d: Draft): (r: Expense)
    ensures r.name == d.name
    ensures r.amount == d.amount
    ensures r.kind == d.kind
    ensures r.shortNote == d.shortNote
    ensures r.transactionDate == d.transactionDate
    ensures Complete(r) <==> SubmitEnabled(d)
  {
    Expense(d.name, d.amount, d.kind, d.shortNote, d.transactionDate)
  }

  /** The button is enabled exactly when no field is at its initial value;
      the strict comparison of the amount with 0 agrees with "the amount is
      not its initial value". */
  lemma SubmitEnabledIffNoFieldAtDefault(d: Draft)
    ensures SubmitEnabled(d) <==> forall f :: !AtDefault(d, f)
  {
    if SubmitEnabled(d) {
      forall f ensures !AtDefault(d, f) {
        match f
        case AmountField =>
          if d.amount == EmptyDraft.amount {
            assert IsZero(d.amount);
          }
        case _ =>
      }
    } else {
      if d.name == "" {
        assert AtDefault(d, NameField);
      } else if IsZero(d.amount) {
        assert AtDefault(d, AmountField);
      } else if d.kind == SelectType {
        assert AtDefault(d, KindField);
      } else if d.shortNote == "" {
        assert AtDefault(d, NoteField);
      } else {
        assert AtDefault(d, DateField);
      }
    }
  }

  /** A draft with any one field at its initial value keeps the button disabled. */
  lemma OneDefaultFieldDisables(d: Draft, f: Field)
    requires AtDefault(d, f)
    ensures !SubmitEnabled(d)
  {
    SubmitEnabledIffNoFieldAtDefault(d);
  }

  /** Putting any one field back to its initial value disables the button,
      whatever the other four hold. */
  lemma ResetFieldDisables(d: Draft, f: Field)
    ensures !SubmitEnabled(ApplyEdit(d, ResetEdit(f)))
  {
    var r := ApplyEdit(d, ResetEdit(f));
    assert AtDefault(r, f) by {
      match f
      case NameField => assert Shows(r, SetName(""));
      case AmountField => assert Shows(r, SetAmount(Num(0.0)));
      case KindField => assert Shows(r, SetKind(SelectType));
      case NoteField => assert Shows(r, SetShortNote(""));
      case DateField => assert Shows(r, SetTransactionDate(""));
    }
    OneDefaultFieldDisables(r, f);
  }

  /** Every field of the initial draft is at its default, so the button
      starts disabled. */
  lemma EmptyDraftDisabled()
    ensures forall f :: AtDefault(EmptyDraft, f)
    ensures !SubmitEnabled(EmptyDraft)
  {
  }

  /** A NaN amount (an emptied amount field) is not equal to 0, so it does
      not keep the button disabled: with the other four fields filled in,
      the draft can be posted with a NaN amount. */
  lemma NaNAmountEnables(d: Draft)
    requires d.amount == NaN
    requires d.name != "" && d.kind != SelectType && d.shortNote != "" && d.transactionDate != ""
    ensures SubmitEnabled(d)
    ensures !AtDefault(d, AmountField)
  {
  }
}
