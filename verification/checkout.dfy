/** Checkout: the field rules of the two checkout schemas (the page's and
    the reusable form component's), the order payload the page builds from
    the cart, and what a submission does to the cart and the store. Zod's
    email grammar is the parameter `isEmail`; a string's length is its
    number of characters. */
module Checkout {
  import opened Wrappers
  import opened Schema
  import Seqs
  import Cart
  import Storage

  /** The three accepted payment methods (`z.enum`). */
  datatype PaymentMethod = CreditCard | BankTransfer | CashOnDelivery

  /** The wire spelling of a payment method. */
  function Label(m: PaymentMethod): string
  {
    match m
    case CreditCard => "credit-card"
    case BankTransfer => "bank-transfer"
    case CashOnDelivery => "cash-on-delivery"
  }

  /** The enum check: a string is accepted exactly when it spells one of
      the three methods, and then it yields that method. */
  function ParsePaymentMethod(s: string): (r: Option<PaymentMethod>)
    ensures r.Some? ==> Label(r.value) == s
    ensures r.None? <==> forall m: PaymentMethod :: Label(m) != s
  {
    if s == "credit-card" then Some(CreditCard)
    else if s == "bank-transfer" then Some(BankTransfer)
    else if s == "cash-on-delivery" then Some(CashOnDelivery)
    else None
  }

  /** Parsing and spelling are inverse: every method survives the round
      trip and no two methods share a spelling. */
  lemma PaymentRoundTrip(m: PaymentMethod, n: PaymentMethod)
    ensures ParsePaymentMethod(Label(m)) == Some(m)
    ensures Label(m) == Label(n) ==> m == n
  {
    assert |Label(m)| == |Label(n)| ==> m == n;
  }

  /** The default payment method of both forms. */
  const DefaultPaymentLabel: string := "cash-on-delivery"

  /** Minimum lengths shared by both schemas (`z.string().min(n)`). */
  const MinNameLength: nat := 2
  const MinPhoneLength: nat := 10
  const MinAddressLength: nat := 10
  const MinCityLength: nat := 2
  const MinPostalCodeLength: nat := 5

  // ---------------------------------------------------------------------
  // The checkout page's schema.

  /** A field of the page's form, as named in an issue. */
  datatype Field =
    | CustomerName | CustomerEmail | CustomerPhone | ShippingAddress
    | City | PostalCode | Payment

  /** The page's form as typed: every field is text. */
  datatype CheckoutInput = CheckoutInput(
    customerName: string,
    customerEmail: string,
    customerPhone: string,
    shippingAddress: string,
    city: string,
    postalCode: string,
    paymentMethod: string)

  /** The page's form after validation. */
  datatype CheckoutData = CheckoutData(
    customerName: string,
    customerEmail: string,
    customerPhone: string,
    shippingAddress: string,
    city: string,
    postalCode: string,
    paymentMethod: PaymentMethod)

  /** The page's form as first shown: empty text, cash on delivery. */
  const DefaultCheckoutInput: CheckoutInput :=
    CheckoutInput("", "", "", "", "", "", DefaultPaymentLabel)

  /** The page's fields in schema order. */
  const CheckoutFields: seq<Field> :=
    [CustomerName, CustomerEmail, CustomerPhone, ShippingAddress, City, PostalCode, Payment]

  /** Every field appears in the schema's field list. */
  lemma EveryField()
    ensures forall field: Field :: field in CheckoutFields
  {
    forall field: Field ensures field in CheckoutFields {
      match field
      case CustomerName => assert CheckoutFields[0] == field;
      case CustomerEmail => assert CheckoutFields[1] == field;
      case CustomerPhone => assert CheckoutFields[2] == field;
      case ShippingAddress => assert CheckoutFields[3] == field;
      case City => assert CheckoutFields[4] == field;
      case PostalCode => assert CheckoutFields[5] == field;
      case Payment => assert CheckoutFields[6] == field;
    }
  }

  /** The page schema's rule for one field. */
  predicate CheckoutRule(f: CheckoutInput, isEmail: string -> bool, field: Field)
  {
    match field
    case CustomerName => |f.customerName| >= MinNameLength
    case CustomerEmail => isEmail(f.customerEmail)
    case CustomerPhone => |f.customerPhone| >= MinPhoneLength
    case ShippingAddress => |f.shippingAddress| >= MinAddressLength
    case City => |f.city| >= MinCityLength
    case PostalCode => |f.postalCode| >= MinPostalCodeLength
    case Payment => ParsePaymentMethod(f.paymentMethod).Some?
  }

  /** Every issue the page's schema reports: exactly the fields whose rule
      fails, in schema order. Zod checks all fields, so one bad field does
      not hide another. */
  function CheckoutIssues(f: CheckoutInput, isEmail: string -> bool): (r: seq<Field>)
    ensures forall field :: field in r <==> !CheckoutRule(f, isEmail, field)
    ensures Seqs.IsSubsequence(r, CheckoutFields)
  {
    var fails := (field: Field) => !CheckoutRule(f, isEmail, field);
    EveryField();
    Seqs.FilterIsSubsequence(CheckoutFields, fails);
    Seqs.Filter(CheckoutFields, fails)
  }

  /** The form text a validated value came from. */
  function CheckoutInputOf(d: CheckoutData): CheckoutInput
  {
    CheckoutInput(d.customerName, d.customerEmail, d.customerPhone, d.shippingAddress,
                  d.city, d.postalCode, Label(d.paymentMethod))
  }

  /** `zodResolver(checkoutSchema)`: the form passes exactly when every
      rule holds, and then the validated value carries the same text (the
      rules check, they do not trim or rewrite); otherwise the issues are
      reported. */
  function ValidateCheckout(f: CheckoutInput, isEmail: string -> bool): (r: Result<CheckoutData, seq<Field>>)
    ensures r.Success? <==>
              && |f.customerName| >= MinNameLength
              && isEmail(f.customerEmail)
              && |f.customerPhone| >= MinPhoneLength
              && |f.shippingAddress| >= MinAddressLength
              && |f.city| >= MinCityLength
              && |f.postalCode| >= MinPostalCodeLength
              && ParsePaymentMethod(f.paymentMethod).Some?
    ensures r.Success? ==> CheckoutInputOf(r.value) == f
    ensures r.Failure? ==> |r.error| > 0 && r.error == CheckoutIssues(f, isEmail)
  {
    var issues := CheckoutIssues(f, isEmail);
    if |issues| > 0 then
      assert !CheckoutRule(f, isEmail, issues[0]);
      Failure(issues)
    else
      assert CheckoutRule(f, isEmail, CustomerName) && CheckoutRule(f, isEmail, CustomerEmail);
      assert CheckoutRule(f, isEmail, CustomerPhone) && CheckoutRule(f, isEmail, ShippingAddress);
      assert CheckoutRule(f, isEmail, City) && CheckoutRule(f, isEmail, PostalCode);
      assert CheckoutRule(f, isEmail, Payment);
      var m := ParsePaymentMethod(f.paymentMethod).value;
      Success(CheckoutData(f.customerName, f.customerEmail, f.customerPhone, f.shippingAddress,
                           f.city, f.postalCode, m))
  }

  /** The page's untouched form is rejected for its five length rules (and
      for the email exactly when the empty string is not an email), never
      for its payment method, which defaults to cash on delivery. */
  lemma DefaultCheckoutRejected(isEmail: string -> bool)
    ensures ParsePaymentMethod(DefaultCheckoutInput.paymentMethod) == Some(CashOnDelivery)
    ensures ValidateCheckout(DefaultCheckoutInput, isEmail).Failure?
    ensures forall field :: field in ValidateCheckout(DefaultCheckoutInput, isEmail).error <==>
              field != Payment && (field == CustomerEmail ==> !isEmail(""))
  {
    var r := ValidateCheckout(DefaultCheckoutInput, isEmail);
    forall field ensures field in r.error <==> field != Payment && (field == CustomerEmail ==> !isEmail("")) {
      DefaultCheckoutRule(isEmail, field);
    }
  }

  /** Which rules the page's untouched form meets, one field at a time. */
  lemma DefaultCheckoutRule(isEmail: string -> bool, field: Field)
    ensures CheckoutRule(DefaultCheckoutInput, isEmail, field) <==>
              field == Payment || (field == CustomerEmail && isEmail(""))
  {
    match field
    case Payment => assert ParsePaymentMethod(DefaultPaymentLabel) == Some(CashOnDelivery);
    case _ =>
  }

  // ---------------------------------------------------------------------
  // The reusable checkout form component's schema.

  /** A field of the component's form, as named in an issue. */
  datatype FormField =
    | FirstName | LastName | Email | Phone | Address | FormCity | FormPostalCode | FormPayment

  /** The component's form as typed. */
  datatype FormInput = FormInput(
    firstName: string,
    lastName: string,
    email: string,
    phone: string,
    address: string,
    city: string,
    postalCode: string,
    paymentMethod: string)

  /** The component's form after validation, as handed to its `onSubmit`. */
  datatype FormData = FormData(
    firstName: string,
    lastName: string,
    email: string,
    phone: string,
    address: string,
    city: string,
    postalCode: string,
    paymentMethod: PaymentMethod)

  /** The component's form as first shown. */
  const DefaultFormInput: FormInput :=
    FormInput("", "", "", "", "", "", "", DefaultPaymentLabel)

  /** The component's fields in schema order. */
  const FormFields: seq<FormField> :=
    [FirstName, LastName, Email, Phone, Address, FormCity, FormPostalCode, FormPayment]

  /** Every field appears in the schema's field list. */
  lemma EveryFormField()
    ensures forall field: FormField :: field in FormFields
  {
    forall field: FormField ensures field in FormFields {
      match field
      case FirstName => assert FormFields[0] == field;
      case LastName => assert FormFields[1] == field;
      case Email => assert FormFields[2] == field;
      case Phone => assert FormFields[3] == field;
      case Address => assert FormFields[4] == field;
      case FormCity => assert FormFields[5] == field;
      case FormPostalCode => assert FormFields[6] == field;
      case FormPayment => assert FormFields[7] == field;
    }
  }

  /** The component schema's rule for one field. */
  predicate FormRule(f: FormInput, isEmail: string -> bool, field: FormField)
  {
    match field
    case FirstName => |f.firstName| >= MinNameLength
    case LastName => |f.lastName| >= MinNameLength
    case Email => isEmail(f.email)
    case Phone => |f.phone| >= MinPhoneLength
    case Address => |f.address| >= MinAddressLength
    case FormCity => |f.city| >= MinCityLength
    case FormPostalCode => |f.postalCode| >= MinPostalCodeLength
    case FormPayment => ParsePaymentMethod(f.paymentMethod).Some?
  }

  /** Every issue the component's schema reports: exactly the fields whose
      rule fails, in schema order. */
  function FormIssues(f: FormInput, isEmail: string -> bool): (r: seq<FormField>)
    ensures forall field :: field in r <==> !FormRule(f, isEmail, field)
    ensures Seqs.IsSubsequence(r, FormFields)
  {
    var fails := (field: FormField) => !FormRule(f, isEmail, field);
    EveryFormField();
    Seqs.FilterIsSubsequence(FormFields, fails);
    Seqs.Filter(FormFields, fails)
  }

  /** The form text a validated component value came from. */
  function FormInputOf(d: FormData): FormInput
  {
    FormInput(d.firstName, d.lastName, d.email, d.phone, d.address, d.city, d.postalCode,
              Label(d.paymentMethod))
  }

  /** `form.handleSubmit(onSubmit)` in the component: `onSubmit` receives a
      value exactly when every rule holds, and that value carries the typed
      text unchanged. */
  function ValidateForm(f: FormInput, isEmail: string -> bool): (r: Result<FormData, seq<FormField>>)
    ensures r.Success? <==>
              && |f.firstName| >= MinNameLength
              && |f.lastName| >= MinNameLength
              && isEmail(f.email)
              && |f.phone| >= MinPhoneLength
              && |f.address| >= MinAddressLength
              && |f.city| >= MinCityLength
              && |f.postalCode| >= MinPostalCodeLength
              && ParsePaymentMethod(f.paymentMethod).Some?
    ensures r.Success? ==> FormInputOf(r.value) == f
    ensures r.Failure? ==> |r.error| > 0 && r.error == FormIssues(f, isEmail)
  {
    var issues := FormIssues(f, isEmail);
    if |issues| > 0 then
      assert !FormRule(f, isEmail, issues[0]);
      Failure(issues)
    else
      assert FormRule(f, isEmail, FirstName) && FormRule(f, isEmail, LastName);
      assert FormRule(f, isEmail, Email) && FormRule(f, isEmail, Phone);
      assert FormRule(f, isEmail, Address) && FormRule(f, isEmail, FormCity);
      assert FormRule(f, isEmail, FormPostalCode) && FormRule(f, isEmail, FormPayment);
      var m := ParsePaymentMethod(f.paymentMethod).value;
      Success(FormData(f.firstName, f.lastName, f.email, f.phone, f.address, f.city,
                       f.postalCode, m))
  }

  /** The component's untouched form is rejected for its six length rules
      (and for the email exactly when the empty string is not an email),
      never for its payment method. */
  lemma DefaultFormRejected(isEmail: string -> bool)
    ensures ParsePaymentMethod(DefaultFormInput.paymentMethod) == Some(CashOnDelivery)
    ensures ValidateForm(DefaultFormInput, isEmail).Failure?
    ensures forall field :: field in ValidateForm(DefaultFormInput, isEmail).error <==>
              field != FormPayment && (field == Email ==> !isEmail(""))
  {
    var r := ValidateForm(DefaultFormInput, isEmail);
    forall field ensures field in r.error <==> field != FormPayment && (field == Email ==> !isEmail("")) {
      DefaultFormRule(isEmail, field);
    }
  }

  /** Which rules the component's untouched form meets, one field at a time. */
  lemma DefaultFormRule(isEmail: string -> bool, field: FormField)
    ensures FormRule(DefaultFormInput, isEmail, field) <==>
              field == FormPayment || (field == Email && isEmail(""))
  {
    match field
    case FormPayment => assert ParsePaymentMethod(DefaultPaymentLabel) == Some(CashOnDelivery);
    case _ =>
  }

  // ---------------------------------------------------------------------
  // The order payload and the submission.

  /** One cart line as frozen into the order. */
  function ItemOf(l: Cart.CartLine): OrderItem
  {
    OrderItem(l.id, l.name, l.price, l.quantity, l.imageUrl)
  }

  /** The cart line an order item was frozen from. */
  function LineOf(it: OrderItem): Cart.CartLine
  {
    Cart.CartLine(it.id, it.name, it.price, it.imageUrl, it.quantity)
  }

  /** `items.map(item => ({id, name, price, quantity, imageUrl}))`: one
      entry per cart line, in cart order, copying the five fields. */
  function Snapshot(cart: Cart.Cart): (r: seq<OrderItem>)
    ensures |r| == |cart|
    ensures forall i :: 0 <= i < |cart| ==>
              && r[i].id == cart[i].id && r[i].name == cart[i].name && r[i].price == cart[i].price
              && r[i].quantity == cart[i].quantity && r[i].imageUrl == cart[i].imageUrl
  {
    Seqs.Map(cart, ItemOf)
  }

  /** The snapshot loses nothing: the cart can be read back from it. */
  lemma SnapshotRoundTrip(cart: Cart.Cart)
    ensures Seqs.Map(Snapshot(cart), LineOf) == cart
  {
    var back := Seqs.Map(Snapshot(cart), LineOf);
    assert forall i :: 0 <= i < |cart| ==> back[i] == cart[i];
  }

  /** The amount an order's items add up to. */
  function ItemsTotal(items: seq<OrderItem>): int
  {
    if |items| == 0 then 0 else items[0].price * items[0].quantity + ItemsTotal(items[1..])
  }

  /** The order's items add up to the cart's total price, so the payload's
      `totalAmount` agrees with its `items`. */
  lemma {:induction false} SnapshotTotal(cart: Cart.Cart)
    ensures ItemsTotal(Snapshot(cart)) == Cart.TotalPrice(cart)
  {
    if |cart| > 0 {
      SnapshotTotal(cart[1..]);
      assert Snapshot(cart)[1..] == Snapshot(cart[1..]);
    }
  }

  /** `orderData`: the validated fields, the cart's total price and the
      cart's snapshot. */
  function BuildOrder(cart: Cart.Cart, d: CheckoutData): (r: InsertOrder)
    ensures r.customerName == d.customerName && r.customerEmail == d.customerEmail
    ensures r.customerPhone == d.customerPhone && r.shippingAddress == d.shippingAddress
    ensures r.city == d.city && r.postalCode == d.postalCode
    ensures ParsePaymentMethod(r.paymentMethod) == Some(d.paymentMethod)
    ensures r.totalAmount == ItemsTotal(r.items) == Cart.TotalPrice(cart)
    ensures Seqs.Map(r.items, LineOf) == cart
  {
    SnapshotTotal(cart);
    SnapshotRoundTrip(cart);
    PaymentRoundTrip(d.paymentMethod, d.paymentMethod);
    InsertOrder(d.customerName, d.customerEmail, d.customerPhone, d.shippingAddress,
                d.city, d.postalCode, Label(d.paymentMethod), Cart.TotalPrice(cart), Snapshot(cart))
  }

  /** What pressing the submit button leads to. */
  datatype Submission =
    | Invalid(issues: seq<Field>)
    | EmptyCart
    | Send(order: InsertOrder)

  /** The page's submission: validation runs first, then `onSubmit` refuses
      an empty cart before building anything, and otherwise posts the
      payload. */
  function Submit(cart: Cart.Cart, f: CheckoutInput, isEmail: string -> bool): (r: Submission)
    ensures r.Invalid? <==> ValidateCheckout(f, isEmail).Failure?
    ensures r.Invalid? ==> r.issues == CheckoutIssues(f, isEmail) && |r.issues| > 0
    ensures r.EmptyCart? <==> ValidateCheckout(f, isEmail).Success? && |cart| == 0
    ensures r.Send? ==>
              && |cart| > 0
              && ValidateCheckout(f, isEmail).Success?
              && r.order == BuildOrder(cart, ValidateCheckout(f, isEmail).value)
              && r.order.customerName == f.customerName && r.order.customerEmail == f.customerEmail
              && r.order.customerPhone == f.customerPhone && r.order.shippingAddress == f.shippingAddress
              && r.order.city == f.city && r.order.postalCode == f.postalCode
              && r.order.paymentMethod == f.paymentMethod
              && r.order.totalAmount == Cart.TotalPrice(cart)
              && Seqs.Map(r.order.items, LineOf) == cart
  {
    match ValidateCheckout(f, isEmail)
    case Failure(issues) => Invalid(issues)
    case Success(d) =>
      if |cart| == 0 then EmptyCart else Send(BuildOrder(cart, d))
  }

  /** The mutation's effect on the cart: `clearCart()` on success, nothing
      on error. */
  function Settle(cart: Cart.Cart, succeeded: bool): (r: Cart.Cart)
    ensures succeeded ==> r == [] && Cart.TotalItems(r) == 0 && Cart.TotalPrice(r) == 0
    ensures !succeeded ==> r == cart
  {
    if succeeded then Cart.Reduce(cart, Cart.ClearCart) else cart
  }

  /** The state a checkout leaves behind: the server's store and the cart. */
  datatype Outcome = Outcome(store: Storage.MemStorage, cart: Cart.Cart)

  /** How the order request ends. The server stores the order before it
      answers, so the request can fail before the store is touched
      (`Rejected`), fail after the order was stored, for instance when the
      answer is lost or cannot be read (`Unacknowledged`), or succeed
      (`Confirmed`). The client runs `onSuccess` only in the last case. */
  datatype Delivery = Rejected | Unacknowledged | Confirmed

  /** One checkout, end to end. The server's `createOrder` stores the
      payload under the fresh id `id` at time `now`. */
  function PlaceOrder(st: Storage.MemStorage, cart: Cart.Cart, f: CheckoutInput, isEmail: string -> bool,
                      id: string, now: Timestamp, delivery: Delivery): (r: Outcome)
    ensures !Submit(cart, f, isEmail).Send? ==> r == Outcome(st, cart)
    ensures Submit(cart, f, isEmail).Send? && delivery.Rejected? ==> r == Outcome(st, cart)
    ensures Submit(cart, f, isEmail).Send? && !delivery.Rejected? ==>
              && r.store.products == st.products
              && (forall k :: k != id ==> Storage.GetOrderById(r.store, k) == Storage.GetOrderById(st, k))
              && Storage.GetOrderById(r.store, id).Some?
              && var o := Storage.GetOrderById(r.store, id).value;
              && InsertFieldsOfOrder(o) == Submit(cart, f, isEmail).order
              && o.id == id
              && o.status == PendingStatus
              && o.createdAt == now
              && o.customerEmail == f.customerEmail
              && o.totalAmount == Cart.TotalPrice(cart) == ItemsTotal(o.items)
              && Seqs.Map(o.items, LineOf) == cart
    ensures Submit(cart, f, isEmail).Send? && delivery.Confirmed? ==> r.cart == []
    ensures Submit(cart, f, isEmail).Send? && !delivery.Confirmed? ==> r.cart == cart
    ensures |cart| == 0 ==> r.store == st && r.cart == cart
  {
    match Submit(cart, f, isEmail)
    case Send(order) =>
      var store := if delivery.Rejected? then st else Storage.CreateOrder(st, order, id, now).store;
      Outcome(store, Settle(cart, delivery.Confirmed?))
    case _ => Outcome(st, cart)
  }
}
