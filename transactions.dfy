/**
 * The transactions list page of `web/src/routes/transactions.tsx`: the filter record and the
 * conjuncts it adds to the query, the per-field filter updates, the add form's submit guard
 * and payload, paging, and the fetch, edit and delete flows.
 */
module TransactionsPage {

  import opened Wrappers
  import Text
  import JsNumber
  import Paging
  import Validation
  import Toasts

  /** A row of `transactions` joined with its customer's name. */
  datatype TxRow = TxRow(
    id: string, customerId: string, title: string, kind: string, amount: real,
    paymentMethod: Option<string>, createdAt: string, customerName: Option<string>)

  /** The `{ type, method, search }` filter record; "" means the filter is off. */
  datatype Filters = Filters(kind: string, payMethod: string, search: string)

  const NoFilters := Filters("", "", "")

  /** One condition the query adds: `type` equality, `payment_method` equality, `title ILIKE`. */
  datatype Conjunct = KindIs(kind: string) | MethodIs(payMethod: string) | TitleLike(pattern: string)

  function OnCount(s: string): nat {
    if s != "" then 1 else 0
  }

  /** The conditions added for the filters, in the order the query chains them. */
  function Conjuncts(f: Filters): (cs: seq<Conjunct>)
    ensures |cs| == OnCount(f.kind) + OnCount(f.payMethod) + OnCount(f.search)
    ensures KindIs(f.kind) in cs <==> f.kind != ""
    ensures MethodIs(f.payMethod) in cs <==> f.payMethod != ""
    ensures TitleLike(f.search) in cs <==> f.search != ""
    ensures forall c :: c in cs ==> c == KindIs(f.kind) || c == MethodIs(f.payMethod) || c == TitleLike(f.search)
  {
    (if f.kind != "" then [KindIs(f.kind)] else [])
    + (if f.payMethod != "" then [MethodIs(f.payMethod)] else [])
    + (if f.search != "" then [TitleLike(f.search)] else [])
  }

  predicate Holds(c: Conjunct, row: TxRow) {
    match c
    case KindIs(k) => row.kind == k
    case MethodIs(m) => row.paymentMethod == Some(m)
    case TitleLike(p) => Text.ContainsIgnoreCase(row.title, p)
  }

  /** A row is selected when it satisfies every conjunct. */
  predicate Selects(cs: seq<Conjunct>, row: TxRow) {
    forall c :: c in cs ==> Holds(c, row)
  }

  /** Each filter that is on restricts its own column, and a filter that is off restricts nothing. */
  lemma FiltersMeaning(f: Filters, row: TxRow)
    ensures Selects(Conjuncts(f), row) <==>
      (f.kind == "" || row.kind == f.kind)
      && (f.payMethod == "" || row.paymentMethod == Some(f.payMethod))
      && (f.search == "" || Text.ContainsIgnoreCase(row.title, f.search))
  {
    var cs := Conjuncts(f);
    if Selects(cs, row) {
      if f.kind != "" { assert Holds(KindIs(f.kind), row); }
      if f.payMethod != "" { assert Holds(MethodIs(f.payMethod), row); }
      if f.search != "" { assert Holds(TitleLike(f.search), row); }
    }
  }

  /** With every filter off the query has no conditions and selects every row. */
  lemma NoFiltersSelectAll(row: TxRow)
    ensures Conjuncts(NoFilters) == []
    ensures Selects(Conjuncts(NoFilters), row)
  {
  }

  datatype TxQuery = TxQuery(window: Paging.Window, conjuncts: seq<Conjunct>)

  function QueryFor(page: int, f: Filters): (q: TxQuery)
    ensures q.window == Paging.PageWindow(page)
    ensures q.conjuncts == Conjuncts(f)
  {
    TxQuery(Paging.PageWindow(page), Conjuncts(f))
  }

  /** The add form as react-hook-form hands it over: every registered field is a string. */
  datatype TxForm = TxForm(
    customerId: string, title: string, description: string, kind: string,
    amount: string, paymentMethod: string)

  /** `{ ...form, amount: Number(form.amount) }`. */
  datatype TxPayload = TxPayload(
    customerId: string, title: string, description: string, kind: string,
    amount: JsNumber.Num, paymentMethod: string)

  /**
   * The submit guard and the payload: an insert is attempted only when customer, title and
   * type are chosen and the amount parses to a number above 0.
   */
  function InsertPayload(form: TxForm): (p: Option<TxPayload>)
    ensures p.Some? <==>
      form.customerId != "" && form.title != "" && form.kind != ""
      && JsNumber.IsPositive(JsNumber.ToNumber(form.amount))
    ensures p.Some? ==>
      p.value.amount == JsNumber.ToNumber(form.amount)
      && p.value.customerId == form.customerId && p.value.title == form.title
      && p.value.description == form.description && p.value.kind == form.kind
      && p.value.paymentMethod == form.paymentMethod
  {
    var amt := JsNumber.ToNumber(form.amount);
    if form.customerId == "" || form.title == "" || form.kind == "" || !JsNumber.IsPositive(amt) then None
    else Some(TxPayload(form.customerId, form.title, form.description, form.kind, amt, form.paymentMethod))
  }

  /**
   * The add form and the edit schema disagree on titles: an inserted row can be edited
   * unchanged iff its title has at least two characters, although one character was enough
   * to insert it.
   */
  lemma InsertedRowEditable(form: TxForm)
    requires InsertPayload(form).Some?
    ensures var p := InsertPayload(form).value;
      var edit := Validation.TransactionEditInput(p.title, Validation.RawNumber(p.amount));
      Validation.TransactionEditSchema(edit).Valid? <==> |form.title| >= 2
  {
  }

  /** The update of the edit form: `{ title, amount }`. */
  datatype TxUpdate = TxUpdate(title: string, amount: JsNumber.Num)

  datatype EditRequest = EditRequest(id: string, update: TxUpdate)

  /** `resetEdit({ title: t.title, amount: Number(t.amount) })`. */
  function Prefill(t: TxRow): Validation.TransactionEditInput {
    Validation.TransactionEditInput(t.title, Validation.RawNumber(JsNumber.Finite(t.amount)))
  }

  /** Saving the prefilled edit form unchanged writes the row's own title and amount back. */
  lemma PrefillRoundTrip(t: TxRow)
    requires |t.title| >= 2 && t.amount > 0.0
    ensures Validation.TransactionEditSchema(Prefill(t)).Valid?
    ensures Validation.TransactionEditSchema(Prefill(t)).value
      == Validation.TransactionEdit(t.title, JsNumber.Finite(t.amount))
  {
  }

  /** An entry of the customer select (`id,name`). */
  datatype CustomerOption = CustomerOption(id: string, name: string)

  datatype ViewState = ViewState(
    transactions: seq<TxRow>, customers: seq<CustomerOption>, loading: bool, showForm: bool,
    filters: Filters, page: int, total: nat, editing: Option<TxRow>,
    editForm: Validation.TransactionEditInput)

  class TransactionsView {
    var transactions: seq<TxRow>
    var customers: seq<CustomerOption>
    var loading: bool
    var showForm: bool
    var filters: Filters
    var page: int
    var total: nat
    var editing: Option<TxRow>
    var editForm: Validation.TransactionEditInput

    function Snapshot(): ViewState
      reads this
    {
      ViewState(transactions, customers, loading, showForm, filters, page, total, editing, editForm)
    }

    ghost predicate Valid()
      reads this
    {
      page >= 1
    }

    constructor ()
      ensures Valid()
      ensures Snapshot() == ViewState([], [], true, false, NoFilters, 1, 0, None,
                                      Validation.TransactionEditInput("", Validation.RawText("")))
    {
      transactions, customers, loading, showForm := [], [], true, false;
      filters, page, total, editing := NoFilters, 1, 0, None;
      editForm := Validation.TransactionEditInput("", Validation.RawText(""));
    }

    function Query(): TxQuery
      reads this
    {
      QueryFor(page, filters)
    }

    function PageCount(): (n: int)
      reads this
      ensures n >= 1
    {
      Paging.TotalPages(total)
    }

    /**
     * `fetchTransactions()`: without an error the rows become the data (none when the data
     * are null) and the total the count (0 when absent); an error keeps both.
     */
    method Fetch(store: TxQuery -> Paging.FetchReply<TxRow>)
      requires Valid()
      modifies this
      ensures Valid()
      ensures var reply := store(old(Query()));
        Snapshot() == if reply.error.None?
          then old(Snapshot()).(transactions := reply.data.GetOr([]), total := Paging.CountOrZero(reply), loading := false)
          else old(Snapshot()).(loading := false)
    {
      loading := true;
      var reply := store(Query());
      if reply.error.None? {
        transactions := reply.data.GetOr([]);
        total := Paging.CountOrZero(reply);
      }
      loading := false;
    }

    /** `fetchCustomers()` for the add form's select: the data, or no options. */
    method LoadCustomers(data: Option<seq<CustomerOption>>)
      requires Valid()
      modifies this
      ensures Valid()
      ensures Snapshot() == old(Snapshot()).(customers := data.GetOr([]))
    {
      customers := data.GetOr([]);
    }

    method OnSearchInput(text: string)
      requires Valid()
      modifies this
      ensures Valid()
      ensures Snapshot() == old(Snapshot()).(page := 1, filters := old(filters).(search := text))
    {
      page := 1;
      filters := filters.(search := text);
    }

    method OnKindSelect(kind: string)
      requires Valid()
      modifies this
      ensures Valid()
      ensures Snapshot() == old(Snapshot()).(page := 1, filters := old(filters).(kind := kind))
    {
      page := 1;
      filters := filters.(kind := kind);
    }

    method OnMethodSelect(payMethod: string)
      requires Valid()
      modifies this
      ensures Valid()
      ensures Snapshot() == old(Snapshot()).(page := 1, filters := old(filters).(payMethod := payMethod))
    {
      page := 1;
      filters := filters.(payMethod := payMethod);
    }

    method ClickPrev()
      requires Valid()
      modifies this
      ensures Valid()
      ensures Snapshot() == old(Snapshot()).(page := if old(page) == 1 then 1 else Paging.PrevPage(old(page)))
    {
      if page != 1 {
        page := Paging.PrevPage(page);
      }
    }

    method ClickNext()
      requires Valid()
      modifies this
      ensures Valid()
      ensures old(page) != PageCount() ==> page <= PageCount()
      ensures Snapshot() == old(Snapshot()).(page :=
        if old(page) == old(PageCount()) then old(page) else Paging.NextPage(old(page), old(PageCount())))
    {
      if page != PageCount() {
        page := Paging.NextPage(page, PageCount());
      }
    }

    method ToggleForm()
      requires Valid()
      modifies this
      ensures Valid()
      ensures Snapshot() == old(Snapshot()).(showForm := !old(showForm))
    {
      showForm := !showForm;
    }

    /** The insert of `InsertPayload` has answered: on success the form closes. */
    method FinishAdd(error: Option<string>, toasts: Toasts.ToastQueue, id: string)
      requires Valid()
      modifies this, toasts
      ensures Valid()
      ensures Snapshot() == old(Snapshot()).(showForm := if error.None? then false else old(showForm))
      ensures toasts.toasts == old(toasts.toasts) + [Toasts.WithId(id, Toasts.Notice(error, "Transaction added", "Error"))]
    {
      if error.None? {
        showForm := false;
      }
      toasts.Push(Toasts.Notice(error, "Transaction added", "Error"), id);
    }

    method BeginEdit(t: TxRow)
      requires Valid()
      modifies this
      ensures Valid()
      ensures Snapshot() == old(Snapshot()).(editing := Some(t), editForm := Prefill(t))
    {
      editing := Some(t);
      editForm := Prefill(t);
    }

    method CancelEdit()
      requires Valid()
      modifies this
      ensures Valid()
      ensures Snapshot() == old(Snapshot()).(editing := None)
    {
      editing := None;
    }

    /** Submitting the edit form: the update sent for the edited row, if any is sent. */
    method SubmitEdit(input: Validation.TransactionEditInput) returns (request: Option<EditRequest>)
      ensures request.Some? <==> Validation.TransactionEditSchema(input).Valid? && editing.Some?
      ensures request.Some? ==>
        request.value.id == editing.value.id
        && request.value.update == TxUpdate(input.title, Validation.Coerce(input.amount))
    {
      var parsed := Validation.TransactionEditSchema(input);
      if parsed.Invalid? || editing.None? {
        return None;
      }
      request := Some(EditRequest(editing.value.id, TxUpdate(parsed.value.title, parsed.value.amount)));
    }

    method FinishEdit(error: Option<string>, toasts: Toasts.ToastQueue, id: string)
      requires Valid()
      modifies this, toasts
      ensures Valid()
      ensures Snapshot() == old(Snapshot()).(editing := if error.None? then None else old(editing))
      ensures toasts.toasts == old(toasts.toasts) + [Toasts.WithId(id, Toasts.Notice(error, "Transaction updated", "Update failed"))]
    {
      if error.None? {
        editing := None;
      }
      toasts.Push(Toasts.Notice(error, "Transaction updated", "Update failed"), id);
    }

    method FinishDelete(error: Option<string>, toasts: Toasts.ToastQueue, id: string)
      requires Valid()
      modifies toasts
      ensures Valid()
      ensures toasts.toasts == old(toasts.toasts) + [Toasts.WithId(id, Toasts.Notice(error, "Transaction deleted", "Delete failed"))]
    {
      toasts.Push(Toasts.Notice(error, "Transaction deleted", "Delete failed"), id);
    }
  }
}
