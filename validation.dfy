/**
 * The zod schemas of `web/src/lib/validation.ts` and the add-customer schema of
 * `web/src/routes/customers.tsx`, as acceptance functions that also normalise.
 * Issues are listed in the schema's field order, as zod's object parser reports them.
 */
module Validation {

  import opened Wrappers
  import JsNumber

  datatype Issue = Issue(path: string, message: string)

  datatype Parsed<T> = Valid(value: T) | Invalid(issues: seq<Issue>)

  /** What a form hands to `z.coerce.number()`: a number (`valueAsNumber`) or text. */
  datatype RawAmount = RawNumber(n: JsNumber.Num) | RawText(s: string)

  /** `z.coerce.number()` first applies `Number(...)` to its input. */
  function Coerce(a: RawAmount): JsNumber.Num {
    match a
    case RawNumber(n) => n
    case RawText(s) => JsNumber.ToNumber(s)
  }

  // ---- customerEditSchema ----

  datatype CustomerEditInput = CustomerEditInput(name: string, phone: Option<string>)

  datatype CustomerEdit = CustomerEdit(name: string, phone: Option<string>)

  function NameIssues(name: string, message: string): seq<Issue> {
    if |name| < 2 then [Issue("name", message)] else []
  }

  /**
   * `z.string().min(5).optional().or(z.literal("").transform(() => undefined))`:
   * absent stays absent, "" becomes absent, otherwise at least five characters.
   */
  function EditPhone(phone: Option<string>): Result<Option<string>, Issue> {
    match phone
    case None => Success(None)
    case Some(p) =>
      if |p| >= 5 then Success(Some(p))
      else if p == "" then Success(None)
      else Failure(Issue("phone", "Phone too short"))
  }

  function CustomerEditSchema(input: CustomerEditInput): (r: Parsed<CustomerEdit>)
    ensures r.Valid? <==> |input.name| >= 2 && EditPhoneOk(input.phone)
    ensures r.Valid? ==> r.value == CustomerEdit(input.name, if input.phone == Some("") then None else input.phone)
  {
    var nameIssues := NameIssues(input.name, "Name too short");
    var phone := EditPhone(input.phone);
    var issues := nameIssues + (if phone.Failure? then [phone.error] else []);
    if issues == [] then Valid(CustomerEdit(input.name, phone.value)) else Invalid(issues)
  }

  /** A phone is acceptable when absent, blank, or at least five characters long. */
  predicate EditPhoneOk(phone: Option<string>) {
    phone.None? || phone.value == "" || |phone.value| >= 5
  }

  /** On rejection the issues name exactly the offending fields, in field order. */
  lemma CustomerEditIssues(input: CustomerEditInput)
    requires CustomerEditSchema(input).Invalid?
    ensures CustomerEditSchema(input).issues
      == (if |input.name| < 2 then [Issue("name", "Name too short")] else [])
       + (if EditPhoneOk(input.phone) then [] else [Issue("phone", "Phone too short")])
  {
  }

  /** Phone lengths one to four are refused, whatever the name. */
  lemma ShortPhoneRejected(name: string, p: string)
    requires 1 <= |p| <= 4
    ensures CustomerEditSchema(CustomerEditInput(name, Some(p))).Invalid?
    ensures Issue("phone", "Phone too short") in CustomerEditSchema(CustomerEditInput(name, Some(p))).issues
  {
  }

  /** Normalisation is idempotent: an accepted value fed back is accepted unchanged. */
  lemma CustomerEditIdempotent(input: CustomerEditInput)
    requires CustomerEditSchema(input).Valid?
    ensures var v := CustomerEditSchema(input).value;
      CustomerEditSchema(CustomerEditInput(v.name, v.phone)) == Valid(v)
  {
  }

  // ---- the add-customer schema (customers.tsx) ----

  /** `z.object({ name: z.string().min(2), phone: z.string().min(5).optional() })`: no "" exception. */
  function CustomerAddSchema(input: CustomerEditInput): (r: Parsed<CustomerEdit>)
    ensures r.Valid? <==> |input.name| >= 2 && (input.phone.None? || |input.phone.value| >= 5)
    ensures r.Valid? ==> r.value == CustomerEdit(input.name, input.phone)
  {
    var issues :=
      NameIssues(input.name, "String must contain at least 2 character(s)")
      + (if input.phone.Some? && |input.phone.value| < 5
         then [Issue("phone", "String must contain at least 5 character(s)")] else []);
    if issues == [] then Valid(CustomerEdit(input.name, input.phone)) else Invalid(issues)
  }

  /**
   * A blank phone field (the text input yields "") blocks adding a customer, although the
   * edit schema accepts the same blank field and stores no phone.
   */
  lemma BlankPhoneAddVersusEdit(name: string)
    requires |name| >= 2
    ensures CustomerAddSchema(CustomerEditInput(name, Some(""))).Invalid?
    ensures CustomerEditSchema(CustomerEditInput(name, Some(""))) == Valid(CustomerEdit(name, None))
  {
  }

  // ---- transactionEditSchema and paymentEditSchema ----

  /** `z.coerce.number().positive(...)`: NaN fails the number check, the rest the sign check. */
  function AmountCheck(a: RawAmount): Result<JsNumber.Num, Issue> {
    var n := Coerce(a);
    if n.NaN? then Failure(Issue("amount", "Expected number, received nan"))
    else if JsNumber.IsPositive(n) then Success(n)
    else Failure(Issue("amount", "Amount must be positive"))
  }

  datatype TransactionEditInput = TransactionEditInput(title: string, amount: RawAmount)

  datatype TransactionEdit = TransactionEdit(title: string, amount: JsNumber.Num)

  function TransactionEditSchema(input: TransactionEditInput): (r: Parsed<TransactionEdit>)
    ensures r.Valid? <==> |input.title| >= 2 && JsNumber.IsPositive(Coerce(input.amount))
    ensures r.Valid? ==> r.value == TransactionEdit(input.title, Coerce(input.amount))
  {
    var amount := AmountCheck(input.amount);
    var issues := NameIssues(input.title, "Title too short") + (if amount.Failure? then [amount.error] else []);
    if issues == [] then Valid(TransactionEdit(input.title, amount.value))
    else Invalid(issues)
  }

  datatype PaymentEdit = PaymentEdit(amount: JsNumber.Num)

  function PaymentEditSchema(amount: RawAmount): (r: Parsed<PaymentEdit>)
    ensures r.Valid? <==> JsNumber.IsPositive(Coerce(amount))
    ensures r.Valid? ==> r.value.amount == Coerce(amount)
  {
    var a := AmountCheck(amount);
    if a.Success? then Valid(PaymentEdit(a.value)) else Invalid([a.error])
  }

  /** Zero and negative amounts are refused with the positivity message. */
  lemma NonPositiveRejected(v: real)
    requires v <= 0.0
    ensures PaymentEditSchema(RawNumber(JsNumber.Finite(v)))
      == Invalid([Issue("amount", "Amount must be positive")])
  {
  }

  /** An amount typed as `units.cc` is accepted exactly when it is at least one cent. */
  lemma TypedAmountAccepted(cents: nat)
    ensures PaymentEditSchema(RawText(JsNumber.CentsToDecimal(cents))).Valid? <==> cents > 0
    ensures cents > 0 ==>
      PaymentEditSchema(RawText(JsNumber.CentsToDecimal(cents))).value.amount
        == JsNumber.Finite(cents as real / 100.0)
  {
    JsNumber.CentsRoundTrip(cents);
  }
}
