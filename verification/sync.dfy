/**
 The component together with the server's stored list. Each request either
 reaches the server, which then stores (POST) or returns (GET) its list and
 answers with a 2xx status, or it is lost and the server keeps its list.
 A POST body goes through `JSON.stringify`, which writes NaN and the
 infinities as `null`; the server stores and returns that JSON form.
 The property: once a fetch has succeeded, the server stores the JSON form
 of the list the component shows, after any sequence of user actions; the
 two are equal exactly when the shown list has no NaN or infinite amount.
 */
module Sync {
  import opened ExpenseForm
  import opened MyExpenses

  /** Whether a request reached the server and was answered with 2xx. */
  datatype Delivery = Delivered | Dropped

  /** What the user or the mount effect does. */
  datatype Event =
    | Typed(edit: Edit)
    | PostClicked(delivery: Delivery)
    | DeleteClicked(index: int, delivery: Delivery)
    | Fetch(delivery: Delivery)

  /** The component's state and the list the server stores. */
  datatype World = World(client: State, server: seq<Expense>)

  /** An amount JSON can carry unchanged: a finite number or `null`. */
  predicate WireStable(a: Amount) {
    a.Num? || a.Null?
  }

  /** What `JSON.stringify` followed by `JSON.parse` makes of an amount:
      finite numbers survive, NaN and the infinities become `null`. */
  function WireAmount(a: Amount): (r: Amount)
    ensures WireStable(r)
    ensures WireStable(a) <==> r == a
    ensures !WireStable(a) ==> r == Null
  {
    if a.Num? then a else Null
  }

  /** An expense after a JSON round trip: only the amount can change. */
  function WireExpense(e: Expense): (r: Expense)
    ensures r.amount == WireAmount(e.amount)
    ensures r.(amount := e.amount) == e
  {
    e.(amount := WireAmount(e.amount))
  }

  /** A list after a JSON round trip, element by element. */
  function Wire(l: seq<Expense>): (r: seq<Expense>)
    ensures |r| == |l|
    ensures forall i :: 0 <= i < |l| ==> r[i] == WireExpense(l[i])
  {
    seq(|l|, i requires 0 <= i < |l| => WireExpense(l[i]))
  }

  /** Every amount of the list survives JSON unchanged. */
  predicate WireForm(l: seq<Expense>) {
    forall i :: 0 <= i < |l| ==> WireStable(l[i].amount)
  }

  /** A list is its own JSON round trip exactly when no amount is NaN or
      infinite, and every JSON round trip gives such a list. */
  lemma WireFixedIff(l: seq<Expense>)
    ensures Wire(l) == l <==> WireForm(l)
    ensures WireForm(Wire(l))
    ensures Wire(Wire(l)) == Wire(l)
  {
    if WireForm(l) {
      assert forall i :: 0 <= i < |l| ==> Wire(l)[i] == l[i];
    }
  }

  /** The server stores the JSON form of the list the component shows. */
  predicate InStep(w: World) {
    w.server == Wire(w.client.expenses)
  }

  /** The component shows exactly what the server stores. */
  predicate Mirrored(w: World) {
    w.client.expenses == w.server
  }

  /** What the component's `then` sees of a POST. */
  function ResponseOf(d: Delivery): Response {
    if d.Delivered? then Ok else Failed
  }

  /** A delivered POST: the only kind of event that writes the server. */
  predicate Writes(e: Event) {
    (e.PostClicked? || e.DeleteClicked?) && e.delivery.Delivered?
  }

  /** One event: the component's transition, with the server storing the
      JSON form of the body of every delivered POST and answering every
      delivered GET with its list. A disabled "Post Expense" button sends
      nothing. */
  function Apply(w: World, e: Event): (w': World)
    ensures e.Typed? ==> w'.server == w.server && w'.client.expenses == w.client.expenses
    ensures e.Fetch? ==> w'.server == w.server
    ensures e.PostClicked? && !SubmitEnabled(w.client.draft) ==> w' == w
    ensures e.Fetch? && e.delivery.Delivered? ==> w'.client.expenses == w.server
    ensures e.PostClicked? && SubmitEnabled(w.client.draft) && e.delivery.Delivered? ==>
      && w'.client.expenses == PostBody(w.client)
      && w'.server == Wire(PostBody(w.client))
    ensures e.DeleteClicked? && e.delivery.Delivered? ==>
      && w'.client.expenses == DeleteBody(w.client, e.index)
      && w'.server == Wire(DeleteBody(w.client, e.index))
    ensures !e.Typed? && e.delivery.Dropped? ==> w'.server == w.server && w'.client.expenses == w.client.expenses
    ensures e.Typed? ==> w'.client.draft == ApplyEdit(w.client.draft, e.edit)
    ensures e.PostClicked? && SubmitEnabled(w.client.draft) && e.delivery.Delivered? ==> w'.client.draft == EmptyDraft
    ensures !e.Typed? && !(e.PostClicked? && SubmitEnabled(w.client.draft) && e.delivery.Delivered?) ==>
      w'.client.draft == w.client.draft
  {
    match e
    case Typed(ed) => World(EditDraft(w.client, ed), w.server)
    case PostClicked(d) =>
      var stored := if SubmitEnabled(w.client.draft) && d.Delivered? then Wire(PostBody(w.client)) else w.server;
      World(ClickPost(w.client, ResponseOf(d)).state, stored)
    case DeleteClicked(i, d) =>
      var stored := if d.Delivered? then Wire(DeleteBody(w.client, i)) else w.server;
      World(DeleteExpense(w.client, i, ResponseOf(d)).state, stored)
    case Fetch(d) =>
      var answer := if d.Delivered? then Fetched(w.server) else FetchFailed;
      World(FetchExpenses(w.client, answer).state, w.server)
  }

  /** The events, applied in order. The server's list changes only through
      delivered POSTs. */
  function Run(w: World, events: seq<Event>): (r: World)
    ensures (forall i :: 0 <= i < |events| ==> !Writes(events[i])) ==> r.server == w.server
    decreases |events|
  {
    if |events| == 0 then w
    else Run(Apply(w, events[0]), events[1..])
  }

  /** Every event keeps the server storing the JSON form of what the
      component shows. */
  lemma ApplyKeepsInStep(w: World, e: Event)
    requires InStep(w)
    ensures InStep(Apply(w, e))
  {
    if e.Fetch? && e.delivery.Delivered? {
      WireFixedIff(w.client.expenses);
    }
  }

  /** A delivered fetch makes the component show exactly what the server
      stores, and, when the server holds a JSON list, puts the two in step. */
  lemma DeliveredFetchMirrors(w: World)
    ensures Mirrored(Apply(w, Fetch(Delivered)))
    ensures WireForm(w.server) ==> InStep(Apply(w, Fetch(Delivered)))
  {
    WireFixedIff(w.server);
  }

  /** Any sequence of events keeps the two in step. */
  lemma {:induction false} RunKeepsInStep(w: World, events: seq<Event>)
    requires InStep(w)
    ensures InStep(Run(w, events))
    decreases |events|
  {
    if |events| > 0 {
      ApplyKeepsInStep(w, events[0]);
      RunKeepsInStep(Apply(w, events[0]), events[1..]);
    }
  }

  /** After a mount whose fetch succeeded, whatever the user then does and
      whichever requests are lost, the server stores the JSON form of the
      table; the table shows exactly the server's list whenever it holds no
      NaN or infinite amount. The server's list came out of JSON, so it
      holds none either. */
  lemma {:induction false} MountedStaysInStep(server: seq<Expense>, events: seq<Event>)
    requires WireForm(server)
    ensures InStep(Run(World(Initial, server), [Fetch(Delivered)] + events))
    ensures var w := Run(World(Initial, server), [Fetch(Delivered)] + events);
      Mirrored(w) <==> WireForm(w.client.expenses)
  {
    var start := World(Initial, server);
    var all := [Fetch(Delivered)] + events;
    assert all[0] == Fetch(Delivered);
    assert all[1..] == events;
    DeliveredFetchMirrors(start);
    RunKeepsInStep(Apply(start, Fetch(Delivered)), events);
    var w := Run(start, all);
    WireFixedIff(w.client.expenses);
  }

  /** With the other four fields filled in and the amount field emptied
      (NaN), a delivered post leaves the table showing NaN while the server
      stores `null`: the two lists differ. */
  lemma NaNPostBreaksMirror()
    ensures var d := Draft("Coffee", NaN, Debit, "morning", "2024-01-01");
      var w := World(State(d, []), []);
      var w' := Apply(w, PostClicked(Delivered));
      && Mirrored(w)
      && SubmitEnabled(d)
      && w'.client.expenses[0].amount == NaN
      && w'.server[0].amount == Null
      && !Mirrored(w')
      && InStep(w')
  {
    var d := Draft("Coffee", NaN, Debit, "morning", "2024-01-01");
    var w := World(State(d, []), []);
    var w' := Apply(w, PostClicked(Delivered));
    assert w'.server[0] == WireExpense(w'.client.expenses[0]);
  }

  /** The five edits that fill an empty form with the fields of `d`. */
  function FillIn(d: Draft): (events: seq<Event>)
    ensures |events| == 5
    ensures forall i :: 0 <= i < 5 ==> events[i].Typed?
  {
    [ Typed(SetName(d.name)), Typed(SetAmount(d.amount)), Typed(SetKind(d.kind)),
      Typed(SetShortNote(d.shortNote)), Typed(SetTransactionDate(d.transactionDate)) ]
  }

  /** When the mount fetch is lost the table stays empty, and the next
      delivered post sends a one-record list: whatever the server stored
      before is replaced by that single record. */
  lemma FailedMountThenPostOverwrites(server: seq<Expense>, d: Draft)
    requires SubmitEnabled(d)
    ensures var w := Run(World(Initial, server), [Fetch(Dropped)] + FillIn(d) + [PostClicked(Delivered)]);
      && w.server == Wire([RecordOf(d)])
      && |w.server| == 1
      && w.client.expenses == [RecordOf(d)]
  {
    var w0 := World(Initial, server);
    var w1 := Apply(w0, Fetch(Dropped));
    assert w1 == w0;
    var typed := Run(w1, FillIn(d));
    assert typed.client == State(d, []) && typed.server == server by {
      var e := FillIn(d);
      var a1 := Apply(w1, e[0]);
      var a2 := Apply(a1, e[1]);
      var a3 := Apply(a2, e[2]);
      var a4 := Apply(a3, e[3]);
      var a5 := Apply(a4, e[4]);
      assert Run(w1, e) == Run(a1, e[1..]);
      assert e[1..][1..] == e[2..] && e[2..][1..] == e[3..] && e[3..][1..] == e[4..] && e[4..][1..] == [];
      assert Run(a1, e[1..]) == Run(a2, e[2..]) == Run(a3, e[3..]) == Run(a4, e[4..]) == Run(a5, []);
    }
    var w := Apply(typed, PostClicked(Delivered));
    var all := [Fetch(Dropped)] + FillIn(d) + [PostClicked(Delivered)];
    RunAppend(w0, [Fetch(Dropped)], FillIn(d));
    RunAppend(w0, [Fetch(Dropped)] + FillIn(d), [PostClicked(Delivered)]);
    assert Run(w0, [Fetch(Dropped)]) == Run(w1, []) == w1;
    assert Run(typed, [PostClicked(Delivered)]) == Run(w, []) == w;
    assert PostBody(typed.client) == [RecordOf(d)];
  }

  /** Running two traces one after the other is running their concatenation. */
  lemma {:induction false} RunAppend(w: World, a: seq<Event>, b: seq<Event>)
    ensures Run(w, a + b) == Run(Run(w, a), b)
    decreases |a|
  {
    if |a| > 0 {
      assert (a + b)[0] == a[0];
      assert (a + b)[1..] == a[1..] + b;
      RunAppend(Apply(w, a[0]), a[1..], b);
    } else {
      assert a + b == b;
    }
  }

  /** Typing and lost requests change neither the list the component shows
      nor the list the server stores. */
  lemma {:induction false} DroppedRequestsKeepList(w: World, events: seq<Event>)
    requires forall i :: 0 <= i < |events| ==> events[i].Typed? || events[i].delivery.Dropped?
    ensures Run(w, events).client.expenses == w.client.expenses
    ensures Run(w, events).server == w.server
    decreases |events|
  {
    if |events| > 0 {
      DroppedRequestsKeepList(Apply(w, events[0]), events[1..]);
    }
  }
}
