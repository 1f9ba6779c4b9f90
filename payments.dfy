/**
 * The payments list page of `web/src/routes/payments.tsx`: the controlled add form and its
 * per-field updates, the submit guard and inserted row, the note search, paging with a count
 * the query never asks for, and the edit and delete flows.
 */
module PaymentsPage {

  import opened Wrappers
  import Text
  import JsNumber
  import Paging
  import Validation
  import Toasts

  /** A row of `payments` joined with its transaction's title. */
  datatype PaymentRow = PaymentRow(
    id: string, amount: real, createdAt: string, payMethod: string, transactionId: string,
    note: Option<string>, transactionTitle: Option<string>)

  /** The controlled `{ transaction_id, amount, method, note }` form. */
  datatype PaymentForm = PaymentForm(transactionId: string, amount: string, payMethod: string, note: string)

  const EmptyForm := PaymentForm("", "", "", "")

  datatype FormField = TransactionField | AmountField | MethodField | NoteField

  /** `setForm((f) => ({ ...f, [field]: value }))`. */
  function WithField(f: PaymentForm, field: FormField, value: string): (g: PaymentForm)
    ensures field == TransactionField ==> g == f.(transactionId := value)
    ensures field == AmountField ==> g == f.(amount := value)
    ensures field == MethodField ==> g == f.(payMethod := value)
    ensures field == NoteField ==> g == f.(note := value)
  {
    match field
    case TransactionField => f.(transactionId := value)
    case AmountField => f.(amount := value)
    case MethodField => f.(payMethod := value)
    case NoteField => f.(note := value)
  }

  /** Updating one field twice keeps only the second value; the others are untouched. */
  lemma WithFieldOverwrites(f: PaymentForm, field: FormField, a: string, b: string)
    ensures WithField(WithField(f, field, a), field, b) == WithField(f, field, b)
  {
  }

  /** Updates of two different fields commute. */
  lemma WithFieldCommutes(f: PaymentForm, x: FormField, y: FormField, a: string, b: string)
    requires x != y
    ensures WithField(WithField(f, x, a), y, b) == WithField(WithField(f, y, b), x, a)
  {
  }

  /** The inserted row: exactly these four columns. */
  datatype PaymentInsert = PaymentInsert(transactionId: string, amount: JsNumber.Num, payMethod: string, note: string)

  /**
   * The submit guard: an insert is attempted only with a transaction chosen, an amount that
   * parses to a number above 0 and a method chosen.
   */
  function InsertRow(form: PaymentForm): (r: Option<PaymentInsert>)
    ensures r.Some? <==>
      form.transactionId != "" && JsNumber.IsPositive(JsNumber.ToNumber(form.amount)) && form.payMethod != ""
    ensures r.Some? ==>
      r.value.transactionId == form.transactionId && r.value.amount == JsNumber.ToNumber(form.amount)
      && r.value.payMethod == form.payMethod && r.value.note == form.note
  {
    var amt := JsNumber.ToNumber(form.amount);
    if form.transactionId == "" || !JsNumber.IsPositive(amt) || form.payMethod == "" then None
    else Some(PaymentInsert(form.transactionId, amt, form.payMethod, form.note))
  }

  /** The reset form can never be submitted as it is. */
  lemma EmptyFormRejected()
    ensures InsertRow(EmptyForm).None?
  {
  }

  /** Every inserted amount would also pass the edit schema, so an added payment stays editable. */
  lemma InsertedRowEditable(form: PaymentForm)
    requires InsertRow(form).Some?
    ensures Validation.PaymentEditSchema(Validation.RawNumber(InsertRow(form).value.amount)).Valid?
  {
  }

  /** An amount typed as a plain decimal with cents is inserted as that exact value. */
  lemma TypedCentsInserted(id: string, cents: nat, payMethod: string, note: string)
    requires id != "" && payMethod != "" && cents > 0
    ensures InsertRow(PaymentForm(id, JsNumber.CentsToDecimal(cents), payMethod, note))
      == Some(PaymentInsert(id, JsNumber.Finite(cents as real / 100.0), payMethod, note))
  {
    JsNumber.CentsRoundTrip(cents);
  }

  /**
   * The list query: one page of rows, narrowed by `note ILIKE %search%` when there is a search,
   * and whether the select asks for the exact row count.
   */
  datatype PaymentQuery = PaymentQuery(window: Paging.Window, noteLike: Option<string>, exactCount: bool)

  /** The query as `load()` builds it: `.select(...)` is given no count option. */
  function QueryAsWritten(page: int, search: string): (q: PaymentQuery)
    ensures !q.exactCount
    ensures q.window == Paging.PageWindow(page)
    ensures q.noteLike.Some? <==> search != ""
  {
    PaymentQuery(Paging.PageWindow(page), if search != "" then Some(search) else None, false)
  }

  /** The query with `{ count: "exact" }`, as the other list pages select it. */
  function QueryFor(page: int, search: string): (q: PaymentQuery)
    ensures q.exactCount
    ensures q.window == Paging.PageWindow(page)
    ensures q.noteLike.Some? <==> search != ""
    ensures q.noteLike.Some? ==> q.noteLike.value == search
  {
    PaymentQuery(Paging.PageWindow(page), if search != "" then Some(search) else None, true)
  }

  /**
   * As written, a successful reply carries no count, so the total is 0, there is one page, and
   * page 1 is both the first and the last: Prev and Next stay disabled and no row past the first
   * ten is ever listed.
   */
  lemma UncountedPaymentsStayOnFirstPage(page: int, search: string, reply: Paging.FetchReply<PaymentRow>)
    requires Paging.CountAsAsked(QueryAsWritten(page, search).exactCount, reply) && reply.error.None?
    ensures Paging.CountOrZero(reply) == 0
    ensures Paging.TotalPages(Paging.CountOrZero(reply)) == 1
    ensures Paging.NextPage(1, Paging.TotalPages(Paging.CountOrZero(reply))) == 1 && Paging.PrevPage(1) == 1
  {
    Paging.NoCountSinglePage(reply);
  }

  /**
   * With the exact count asked for, every row of the result set lies on a page within the pager's
   * range, and with more than ten payments Next moves on from page 1.
   */
  lemma CountedPaymentsReachEveryRow(page: int, search: string, reply: Paging.FetchReply<PaymentRow>, i: nat)
    requires Paging.CountAsAsked(QueryFor(page, search).exactCount, reply) && reply.error.None?
    ensures reply.count.Some?
    ensures i < Paging.CountOrZero(reply) ==> 1 <= Paging.PageOf(i) <= Paging.TotalPages(Paging.CountOrZero(reply))
    ensures Paging.CountOrZero(reply) > Paging.PageSize ==> Paging.NextPage(1, Paging.TotalPages(Paging.CountOrZero(reply))) == 2
  {
    if i < Paging.CountOrZero(reply) {
      Paging.PagesCoverRows(Paging.CountOrZero(reply), i);
    }
  }

  /** A null note never matches a search; with no search every row matches. */
  predicate Selects(q: PaymentQuery, p: PaymentRow) {
    q.noteLike.None? || (p.note.Some? && Text.ContainsIgnoreCase(p.note.value, q.noteLike.value))
  }

  lemma SearchMeaning(page: int, search: string, p: PaymentRow)
    ensures Selects(QueryFor(page, search), p) <==>
      search == "" || (p.note.Some? && Text.ContainsIgnoreCase(p.note.value, search))
  {
  }

  /** An entry of the transaction select (`id,title`). */
  datatype TransactionOption = TransactionOption(id: string, title: string)

  datatype EditRequest = EditRequest(id: string, amount: JsNumber.Num)

  /** `resetEdit({ amount: Number(p.amount) })`. */
  function Prefill(p: PaymentRow): Validation.RawAmount {
    Validation.RawNumber(JsNumber.Finite(p.amount))
  }

  lemma PrefillRoundTrip(p: PaymentRow)
    requires p.amount > 0.0
    ensures Validation.PaymentEditSchema(Prefill(p)) == Validation.Valid(Validation.PaymentEdit(JsNumber.Finite(p.amount)))
  {
  }

  datatype ViewState = ViewState(
    payments: seq<PaymentRow>, loading: bool, search: string, page: int, total: nat,
    transactions: seq<TransactionOption>, form: PaymentForm, editing: Option<PaymentRow>,
    editForm: Validation.RawAmount)

  class PaymentsView {
    var payments: seq<PaymentRow>
    var loading: bool
    var search: string
    var page: int
    var total: nat
    var transactions: seq<TransactionOption>
    var form: PaymentForm
    var editing: Option<PaymentRow>
    var editForm: Validation.RawAmount

    function Snapshot(): ViewState
      reads this
    {
      ViewState(payments, loading, search, page, total, transactions, form, editing, editForm)
    }

    ghost predicate Valid()
      reads this
    {
      page >= 1
    }

    constructor ()
      ensures Valid()
      ensures Snapshot() == ViewState([], true, "", 1, 0, [], EmptyForm, None, Validation.RawText(""))
    {
      payments, loading, search, page, total := [], true, "", 1, 0;
      transactions, form, editing := [], EmptyForm, None;
      editForm := Validation.RawText("");
    }

    /** The query `load()` sends, as written: no count is asked for. */
    function Query(): PaymentQuery
      reads this
    {
      QueryAsWritten(page, search)
    }

    /**
     * With a store that reports a count only when asked, a successful load leaves a single
     * page, so neither pager button can leave page 1.
     */
    lemma LoadNeverPages(store: PaymentQuery -> Paging.FetchReply<PaymentRow>)
      requires Paging.CountAsAsked(Query().exactCount, store(Query())) && store(Query()).error.None?
      ensures Paging.CountOrZero(store(Query())) == 0 && Paging.TotalPages(Paging.CountOrZero(store(Query()))) == 1
    {
      UncountedPaymentsStayOnFirstPage(page, search, store(Query()));
    }

    function PageCount(): (n: int)
      reads this
      ensures n >= 1
    {
      Paging.TotalPages(total)
    }

    /**
     * `load()`: without an error the rows become the data (none when null) and the total the
     * count, or 0 when the reply has no count. The select asks for none, so a store that answers
     * as asked leaves a single page.
     */
    method Fetch(store: PaymentQuery -> Paging.FetchReply<PaymentRow>)
      requires Valid()
      modifies this
      ensures Valid()
      ensures var reply := store(old(Query()));
        Snapshot() == if reply.error.None?
          then old(Snapshot()).(payments := reply.data.GetOr([]), total := Paging.CountOrZero(reply), loading := false)
          else old(Snapshot()).(loading := false)
      ensures store(old(Query())).error.None? && store(old(Query())).count.None? ==> PageCount() == 1
      ensures Paging.CountAsAsked(old(Query()).exactCount, store(old(Query()))) && store(old(Query())).error.None?
        ==> total == 0 && PageCount() == 1
    {
      loading := true;
      var reply := store(Query());
      if reply.error.None? {
        payments := reply.data.GetOr([]);
        total := Paging.CountOrZero(reply);
      }
      loading := false;
      if reply.count.None? && reply.error.None? {
        Paging.NoCountSinglePage(reply);
      }
    }

    /** `loadTransactions()` for the add form's select: the data, or no options. */
    method LoadTransactions(data: Option<seq<TransactionOption>>)
      requires Valid()
      modifies this
      ensures Valid()
      ensures Snapshot() == old(Snapshot()).(transactions := data.GetOr([]))
    {
      transactions := data.GetOr([]);
    }

    method OnSearchInput(text: string)
      requires Valid()
      modifies this
      ensures Valid()
      ensures Snapshot() == old(Snapshot()).(page := 1, search := text)
    {
      page := 1;
      search := text;
    }

    method OnFormInput(field: FormField, value: string)
      requires Valid()
      modifies this
      ensures Valid()
      ensures Snapshot() == old(Snapshot()).(form := WithField(old(form), field, value))
    {
      form := WithField(form, field, value);
    }

    method ClickPrev()
      requires Valid()
      modifies this
      ensures Valid()
      ensures Snapshot() == old(Snapshot()).(page := if old(page) == 1 then 1 else Paging.PrevPage(old(page)))
    {
      if page != 1 {
        page := Paging.PrevPage(page);
      }
    }

    method ClickNext()
      requires Valid()
      modifies this
      ensures Valid()
      ensures old(page) != PageCount() ==> page <= PageCount()
      ensures Snapshot() == old(Snapshot()).(page :=
        if old(page) == old(PageCount()) then old(page) else Paging.NextPage(old(page), old(PageCount())))
    {
      if page != PageCount() {
        page := Paging.NextPage(page, PageCount());
      }
    }

    /** Submitting the add form: the row to insert, if the guard lets the current form through. */
    method Submit() returns (insert: Option<PaymentInsert>)
      ensures insert.Some? <==>
        form.transactionId != "" && JsNumber.IsPositive(JsNumber.ToNumber(form.amount)) && form.payMethod != ""
      ensures insert.Some? ==> insert.value == PaymentInsert(form.transactionId, JsNumber.ToNumber(form.amount), form.payMethod, form.note)
    {
      insert := InsertRow(form);
    }

    /** The insert has answered: on success all four fields are cleared; a failure keeps them. */
    method FinishAdd(error: Option<string>, toasts: Toasts.ToastQueue, id: string)
      requires Valid()
      modifies this, toasts
      ensures Valid()
      ensures Snapshot() == old(Snapshot()).(form := if error.None? then EmptyForm else old(form))
      ensures toasts.toasts == old(toasts.toasts) + [Toasts.WithId(id, Toasts.Notice(error, "Payment added", "Error"))]
    {
      if error.None? {
        form := EmptyForm;
      }
      toasts.Push(Toasts.Notice(error, "Payment added", "Error"), id);
    }

    method BeginEdit(p: PaymentRow)
      requires Valid()
      modifies this
      ensures Valid()
      ensures Snapshot() == old(Snapshot()).(editing := Some(p), editForm := Prefill(p))
    {
      editing := Some(p);
      editForm := Prefill(p);
    }

    method CancelEdit()
      requires Valid()
      modifies this
      ensures Valid()
      ensures Snapshot() == old(Snapshot()).(editing := None)
    {
      editing := None;
    }

    /** Submitting the edit form: the update `{ amount }` sent for the edited row, if any is sent. */
    method SubmitEdit(input: Validation.RawAmount) returns (request: Option<EditRequest>)
      ensures request.Some? <==> JsNumber.IsPositive(Validation.Coerce(input)) && editing.Some?
      ensures request.Some? ==> request.value == EditRequest(editing.value.id, Validation.Coerce(input))
    {
      var parsed := Validation.PaymentEditSchema(input);
      if parsed.Invalid? || editing.None? {
        return None;
      }
      request := Some(EditRequest(editing.value.id, parsed.value.amount));
    }

    method FinishEdit(error: Option<string>, toasts: Toasts.ToastQueue, id: string)
      requires Valid()
      modifies this, toasts
      ensures Valid()
      ensures Snapshot() == old(Snapshot()).(editing := if error.None? then None else old(editing))
      ensures toasts.toasts == old(toasts.toasts) + [Toasts.WithId(id, Toasts.Notice(error, "Payment updated", "Update failed"))]
    {
      if error.None? {
        editing := None;
      }
      toasts.Push(Toasts.Notice(error, "Payment updated", "Update failed"), id);
    }

    method FinishDelete(error: Option<string>, toasts: Toasts.ToastQueue, id: string)
      requires Valid()
      modifies toasts
      ensures Valid()
      ensures toasts.toasts == old(toasts.toasts) + [Toasts.WithId(id, Toasts.Notice(error, "Payment deleted", "Delete failed"))]
    {
      toasts.Push(Toasts.Notice(error, "Payment deleted", "Delete failed"), id);
    }
  }
}
