/**
 * The customers list page of `web/src/routes/customers.tsx`: its state cells, the query it
 * issues for a page and a search text, what a reply does to the rows, paging clicks, and the
 * add, edit and delete flows up to the toast they push.
 */
module CustomersPage {

  import opened Wrappers
  import Text
  import Paging
  import Validation
  import Toasts

  datatype Customer = Customer(id: string, name: string, phone: Option<string>, createdAt: string)

  /** The list query: one page of rows, narrowed by `name ILIKE %search%` when there is a search. */
  datatype CustomerQuery = CustomerQuery(window: Paging.Window, nameLike: Option<string>)

  function QueryFor(page: int, search: string): (q: CustomerQuery)
    ensures q.window == Paging.PageWindow(page)
    ensures q.nameLike.Some? <==> search != ""
    ensures q.nameLike.Some? ==> q.nameLike.value == search
  {
    CustomerQuery(Paging.PageWindow(page), if search != "" then Some(search) else None)
  }

  /** Whether a customer row satisfies the query's filter (case-insensitive containment). */
  predicate Selects(q: CustomerQuery, c: Customer) {
    q.nameLike.None? || Text.ContainsIgnoreCase(c.name, q.nameLike.value)
  }

  lemma SearchMeaning(page: int, search: string, c: Customer)
    ensures Selects(QueryFor(page, search), c) <==> search == "" || Text.ContainsIgnoreCase(c.name, search)
  {
  }

  /** A customer whose name is exactly the search text is always found. */
  lemma SearchFindsExactName(page: int, c: Customer)
    ensures Selects(QueryFor(page, c.name), c)
  {
    Text.ContainsSelf(Text.LowerString(c.name));
  }

  /** The row update of the edit form: `{ name: parsed.name, phone: parsed.phone || null }`. */
  datatype CustomerUpdate = CustomerUpdate(name: string, phone: Option<string>)

  function EditUpdate(v: Validation.CustomerEdit): (u: CustomerUpdate)
    ensures u.name == v.name
    ensures u.phone.None? <==> v.phone.None? || v.phone == Some("")
    ensures u.phone.Some? ==> u.phone == v.phone
  {
    CustomerUpdate(v.name, if v.phone.Some? && v.phone.value != "" then v.phone else None)
  }

  /** `resetEdit({ name: c.name, phone: c.phone || "" })`: the edit form filled from a row. */
  function Prefill(c: Customer): Validation.CustomerEditInput {
    Validation.CustomerEditInput(c.name, Some(c.phone.GetOr("")))
  }

  /** Submitting the prefilled edit form unchanged stores the row's own values, a blank phone as null. */
  lemma PrefillRoundTrip(c: Customer)
    requires |c.name| >= 2 && Validation.EditPhoneOk(c.phone)
    ensures Validation.CustomerEditSchema(Prefill(c)).Valid?
    ensures EditUpdate(Validation.CustomerEditSchema(Prefill(c)).value)
      == CustomerUpdate(c.name, if c.phone == Some("") then None else c.phone)
  {
  }

  /** Through the edit form an empty or absent phone is stored as null, any other as itself. */
  lemma EditStoresBlankPhoneAsNull(input: Validation.CustomerEditInput)
    requires Validation.CustomerEditSchema(input).Valid?
    ensures var u := EditUpdate(Validation.CustomerEditSchema(input).value);
      (u.phone.None? <==> input.phone.None? || input.phone == Some(""))
      && (u.phone.Some? ==> u.phone == input.phone && |u.phone.value| >= 5)
  {
  }

  datatype EditRequest = EditRequest(id: string, update: CustomerUpdate)

  /** All state cells of the page at one moment. */
  datatype ViewState = ViewState(
    customers: seq<Customer>, loading: bool, adding: bool, page: int, total: nat,
    showForm: bool, search: string, editing: Option<Customer>,
    editForm: Validation.CustomerEditInput)

  class CustomersView {
    var customers: seq<Customer>
    var loading: bool
    var adding: bool
    var page: int
    var total: nat
    var showForm: bool
    var search: string
    var editing: Option<Customer>
    var editForm: Validation.CustomerEditInput

    function Snapshot(): ViewState
      reads this
    {
      ViewState(customers, loading, adding, page, total, showForm, search, editing, editForm)
    }

    /** The page number never drops below 1. */
    ghost predicate Valid()
      reads this
    {
      page >= 1
    }

    constructor ()
      ensures Valid()
      ensures Snapshot() == ViewState([], true, false, 1, 0, false, "", None,
                                      Validation.CustomerEditInput("", None))
    {
      customers, loading, adding, page, total := [], true, false, 1, 0;
      showForm, search, editing := false, "", None;
      editForm := Validation.CustomerEditInput("", None);
    }

    function Query(): CustomerQuery
      reads this
    {
      QueryFor(page, search)
    }

    function PageCount(): (n: int)
      reads this
      ensures n >= 1
    {
      Paging.TotalPages(total)
    }

    /**
     * `fetchCustomers()`, with the store answering `store(query)`: rows and total are replaced
     * only when there is no error and there are data; loading ends either way.
     */
    method Fetch(store: CustomerQuery -> Paging.FetchReply<Customer>)
      requires Valid()
      modifies this
      ensures Valid()
      ensures var reply := store(old(Query()));
        Snapshot() == if reply.error.None? && reply.data.Some?
          then old(Snapshot()).(customers := reply.data.value, total := Paging.CountOrZero(reply), loading := false)
          else old(Snapshot()).(loading := false)
    {
      loading := true;
      var reply := store(Query());
      if reply.error.None? && reply.data.Some? {
        customers := reply.data.value;
        total := Paging.CountOrZero(reply);
      }
      loading := false;
    }

    /** Typing in the search box: back to page 1 with the new text. */
    method OnSearchInput(text: string)
      requires Valid()
      modifies this
      ensures Valid()
      ensures Snapshot() == old(Snapshot()).(page := 1, search := text)
    {
      page := 1;
      search := text;
    }

    /** Prev: disabled on page 1, otherwise `Math.max(1, p - 1)`. */
    method ClickPrev()
      requires Valid()
      modifies this
      ensures Valid()
      ensures Snapshot() == old(Snapshot()).(page := if old(page) == 1 then 1 else Paging.PrevPage(old(page)))
    {
      if page != 1 {
        page := Paging.PrevPage(page);
      }
    }

    /** Next: disabled on the last page, otherwise `Math.min(totalPages, p + 1)`. */
    method ClickNext()
      requires Valid()
      modifies this
      ensures Valid()
      ensures old(page) != PageCount() ==> page <= PageCount()
      ensures Snapshot() == old(Snapshot()).(page :=
        if old(page) == old(PageCount()) then old(page) else Paging.NextPage(old(page), old(PageCount())))
    {
      if page != PageCount() {
        page := Paging.NextPage(page, PageCount());
      }
    }

    method ToggleForm()
      requires Valid()
      modifies this
      ensures Valid()
      ensures Snapshot() == old(Snapshot()).(showForm := !old(showForm))
    {
      showForm := !showForm;
    }

    /**
     * Submitting the add form: the resolver validates it, and only a valid form is inserted
     * (`setAdding(true)` while the insert is under way).
     */
    method SubmitAdd(input: Validation.CustomerEditInput) returns (insert: Option<Validation.CustomerEdit>)
      requires Valid()
      modifies this
      ensures Valid()
      ensures insert.Some? <==> Validation.CustomerAddSchema(input).Valid?
      ensures insert.Some? ==> insert.value == Validation.CustomerAddSchema(input).value
      ensures Snapshot() == if insert.Some? then old(Snapshot()).(adding := true) else old(Snapshot())
    {
      var parsed := Validation.CustomerAddSchema(input);
      if parsed.Valid? {
        adding := true;
        insert := Some(parsed.value);
      } else {
        insert := None;
      }
    }

    /** The insert has answered: on success the form closes; a toast reports the outcome. */
    method FinishAdd(error: Option<string>, toasts: Toasts.ToastQueue, id: string)
      requires Valid()
      modifies this, toasts
      ensures Valid()
      ensures Snapshot() == old(Snapshot()).(adding := false, showForm := if error.None? then false else old(showForm))
      ensures toasts.toasts == old(toasts.toasts) + [Toasts.WithId(id, Toasts.Notice(error, "Customer added", "Error"))]
    {
      adding := false;
      if error.None? {
        showForm := false;
      }
      toasts.Push(Toasts.Notice(error, "Customer added", "Error"), id);
    }

    /** The Edit button: remember the row and fill the edit form from it. */
    method BeginEdit(c: Customer)
      requires Valid()
      modifies this
      ensures Valid()
      ensures Snapshot() == old(Snapshot()).(editing := Some(c), editForm := Prefill(c))
    {
      editing := Some(c);
      editForm := Prefill(c);
    }

    /** Cancel, or closing the modal. */
    method CancelEdit()
      requires Valid()
      modifies this
      ensures Valid()
      ensures Snapshot() == old(Snapshot()).(editing := None)
    {
      editing := None;
    }

    /** Submitting the edit form: the update sent for the edited row, if any is sent. */
    method SubmitEdit(input: Validation.CustomerEditInput) returns (request: Option<EditRequest>)
      ensures request.Some? <==> Validation.CustomerEditSchema(input).Valid? && editing.Some?
      ensures request.Some? ==>
        request.value == EditRequest(editing.value.id, EditUpdate(Validation.CustomerEditSchema(input).value))
    {
      var parsed := Validation.CustomerEditSchema(input);
      if parsed.Invalid? || editing.None? {
        return None;
      }
      request := Some(EditRequest(editing.value.id, EditUpdate(parsed.value)));
    }

    /** The update has answered: on success the modal closes; a toast reports the outcome. */
    method FinishEdit(error: Option<string>, toasts: Toasts.ToastQueue, id: string)
      requires Valid()
      modifies this, toasts
      ensures Valid()
      ensures Snapshot() == old(Snapshot()).(editing := if error.None? then None else old(editing))
      ensures toasts.toasts == old(toasts.toasts) + [Toasts.WithId(id, Toasts.Notice(error, "Customer updated", "Update failed"))]
    {
      if error.None? {
        editing := None;
      }
      toasts.Push(Toasts.Notice(error, "Customer updated", "Update failed"), id);
    }

    /** The delete has answered (after the confirmation): only a toast, the page state is untouched. */
    method FinishDelete(error: Option<string>, toasts: Toasts.ToastQueue, id: string)
      requires Valid()
      modifies toasts
      ensures Valid()
      ensures toasts.toasts == old(toasts.toasts) + [Toasts.WithId(id, Toasts.Notice(error, "Customer deleted", "Delete failed"))]
    {
      toasts.Push(Toasts.Notice(error, "Customer deleted", "Delete failed"), id);
    }
  }
}
