/** The checkout page: the delivery form, the order body and headers `saveOrder` posts, and
    the two payment paths — cash on delivery, which saves the order at once, and Razorpay,
    which saves it only after the payment has been verified. */
module Checkout {
  import opened Wrappers
  import opened Text
  import opened Session
  import opened CartStore

  /** `form`. */
  datatype CheckoutForm = CheckoutForm(name: string, email: string, phone: string, address: string, city: string, pincode: string)

  const EmptyForm := CheckoutForm("", "", "", "", "", "")

  /** The six inputs, named as their `name` attributes. */
  datatype FormKey = NameKey | EmailKey | PhoneKey | AddressKey | CityKey | PincodeKey

  function Get(f: CheckoutForm, k: FormKey): string {
    match k
    case NameKey => f.name
    case EmailKey => f.email
    case PhoneKey => f.phone
    case AddressKey => f.address
    case CityKey => f.city
    case PincodeKey => f.pincode
  }

  /** `handleChange`: `{ ...s, [name]: value }`. */
  function SetField(f: CheckoutForm, k: FormKey, value: string): (g: CheckoutForm)
    ensures Get(g, k) == value
    ensures forall other: FormKey :: other != k ==> Get(g, other) == Get(f, other)
  {
    match k
    case NameKey => f.(name := value)
    case EmailKey => f.(email := value)
    case PhoneKey => f.(phone := value)
    case AddressKey => f.(address := value)
    case CityKey => f.(city := value)
    case PincodeKey => f.(pincode := value)
  }

  /** The inputs `handleSubmit` insists on. */
  predicate Required(k: FormKey) {
    k == NameKey || k == EmailKey || k == PhoneKey || k == AddressKey
  }

  /** Name, email, phone and address are all filled in. */
  predicate Complete(f: CheckoutForm) {
    f.name != "" && f.email != "" && f.phone != "" && f.address != ""
  }

  /** A form is complete exactly when no required input is empty; city and pincode never
      decide it. */
  lemma CompleteIffRequiredFilled(f: CheckoutForm, city: string, pincode: string)
    ensures Complete(f) <==> forall k: FormKey :: Required(k) ==> Get(f, k) != ""
    ensures Complete(f) <==> Complete(f.(city := city, pincode := pincode))
  {
    if !Complete(f) {
      if f.name == "" { assert Required(NameKey) && Get(f, NameKey) == ""; }
      else if f.email == "" { assert Required(EmailKey) && Get(f, EmailKey) == ""; }
      else if f.phone == "" { assert Required(PhoneKey) && Get(f, PhoneKey) == ""; }
      else { assert Required(AddressKey) && Get(f, AddressKey) == ""; }
    }
  }

  /** A JSON value of the order body. */
  datatype Json = JText(text: string) | JNumber(number: int) | JLines(lines: seq<CartLine>)

  /** The keys the order body can carry. */
  datatype BodyKey = TotalPriceField | ShippingAddressField | CityField | PincodeField | PaymentMethodField
    | FullNameField | EmailField | GuestNameField | GuestEmailField | PhoneField | ItemsField

  /** The name `JSON.stringify` writes for a key. */
  function KeyName(k: BodyKey): string {
    match k
    case TotalPriceField => "total_price"
    case ShippingAddressField => "shipping_address"
    case CityField => "city"
    case PincodeField => "pincode"
    case PaymentMethodField => "payment_method"
    case FullNameField => "full_name"
    case EmailField => "email"
    case GuestNameField => "guest_name"
    case GuestEmailField => "guest_email"
    case PhoneField => "phone"
    case ItemsField => "items"
  }

  /** Distinct keys are written under distinct names, so a key of the model is a key of the
      posted JSON. */
  lemma KeyNamesDistinct(k1: BodyKey, k2: BodyKey)
    ensures KeyName(k1) == KeyName(k2) <==> k1 == k2
  {
    if k1 != k2 {
      // No two names share both their length and their first character.
      assert |KeyName(k1)| != |KeyName(k2)| || KeyName(k1)[0] != KeyName(k2)[0];
    }
  }

  /** One key of a JSON object, in the order `JSON.stringify` writes it. */
  datatype Entry = Entry(key: BodyKey, value: Json)

  /** The value under `key`, if the object has that key. */
  function Lookup(body: seq<Entry>, key: BodyKey): (v: Option<Json>)
    ensures v.None? <==> forall i :: 0 <= i < |body| ==> body[i].key != key
  {
    if body == [] then None
    else if body[0].key == key then Some(body[0].value)
    else Lookup(body[1..], key)
  }

  /** The value under a key is the one at its first occurrence. */
  lemma {:induction false} LookupAt(body: seq<Entry>, i: int)
    requires 0 <= i < |body| && forall j :: 0 <= j < i ==> body[j].key != body[i].key
    ensures Lookup(body, body[i].key) == Some(body[i].value)
  {
    if i > 0 {
      LookupAt(body[1..], i - 1);
    }
  }

  /** The body `saveOrder` posts: the total, the address, city, pincode and payment method,
      then the customer's contact under the account keys when there is a token (`...(token &&
      {...})`) or under the guest keys when there is none, then the cart lines. */
  function OrderBody(form: CheckoutForm, total: int, paymentMethod: string, token: string, items: seq<CartLine>): seq<Entry> {
    [Entry(TotalPriceField, JNumber(total)), Entry(ShippingAddressField, JText(form.address)),
     Entry(CityField, JText(form.city)), Entry(PincodeField, JText(form.pincode)),
     Entry(PaymentMethodField, JText(paymentMethod))] +
    (if token != "" then [Entry(FullNameField, JText(form.name)), Entry(EmailField, JText(form.email)), Entry(PhoneField, JText(form.phone))] else []) +
    (if token == "" then [Entry(GuestNameField, JText(form.name)), Entry(GuestEmailField, JText(form.email)), Entry(PhoneField, JText(form.phone))] else []) +
    [Entry(ItemsField, JLines(items))]
  }

  /** The body written out entry by entry: the contact keys are the account ones with a token
      and the guest ones without. */
  lemma BodyEntries(form: CheckoutForm, total: int, paymentMethod: string, token: string, items: seq<CartLine>)
    ensures OrderBody(form, total, paymentMethod, token, items) ==
      [Entry(TotalPriceField, JNumber(total)), Entry(ShippingAddressField, JText(form.address)),
       Entry(CityField, JText(form.city)), Entry(PincodeField, JText(form.pincode)),
       Entry(PaymentMethodField, JText(paymentMethod)),
       Entry(if token != "" then FullNameField else GuestNameField, JText(form.name)),
       Entry(if token != "" then EmailField else GuestEmailField, JText(form.email)),
       Entry(PhoneField, JText(form.phone)), Entry(ItemsField, JLines(items))]
  {
  }

  /** No key of the body is written twice, nor any name. */
  lemma BodyKeysDistinct(form: CheckoutForm, total: int, paymentMethod: string, token: string, items: seq<CartLine>)
    ensures var b := OrderBody(form, total, paymentMethod, token, items);
      |b| == 9 && forall i, j :: 0 <= i < j < |b| ==> b[i].key != b[j].key && KeyName(b[i].key) != KeyName(b[j].key)
  {
    BodyEntries(form, total, paymentMethod, token, items);
    var b := OrderBody(form, total, paymentMethod, token, items);
    forall i, j | 0 <= i < j < 9 ensures b[i].key != b[j].key && KeyName(b[i].key) != KeyName(b[j].key) {
      KeyNamesDistinct(b[i].key, b[j].key);
    }
  }

  /** Where the body puts the customer's contact: a signed-in customer's under `full_name` and
      `email`, a guest's under `guest_name` and `guest_email`, never both; the phone under
      `phone` either way. */
  lemma OrderBodyContact(form: CheckoutForm, total: int, paymentMethod: string, token: string, items: seq<CartLine>)
    ensures var b := OrderBody(form, total, paymentMethod, token, items);
      Lookup(b, FullNameField) == (if token != "" then Some(JText(form.name)) else None) &&
      Lookup(b, EmailField) == (if token != "" then Some(JText(form.email)) else None) &&
      Lookup(b, GuestNameField) == (if token == "" then Some(JText(form.name)) else None) &&
      Lookup(b, GuestEmailField) == (if token == "" then Some(JText(form.email)) else None) &&
      Lookup(b, PhoneField) == Some(JText(form.phone))
  {
    if token != "" {
      SignedInContact(form, total, paymentMethod, token, items);
    } else {
      GuestContact(form, total, paymentMethod, items);
    }
  }

  /** The contact keys of a signed-in customer's body. */
  lemma {:induction false} SignedInContact(form: CheckoutForm, total: int, paymentMethod: string, token: string, items: seq<CartLine>)
    requires token != ""
    ensures var b := OrderBody(form, total, paymentMethod, token, items);
      Lookup(b, FullNameField) == Some(JText(form.name)) && Lookup(b, EmailField) == Some(JText(form.email)) &&
      Lookup(b, GuestNameField).None? && Lookup(b, GuestEmailField).None? &&
      Lookup(b, PhoneField) == Some(JText(form.phone))
  {
    var b := OrderBody(form, total, paymentMethod, token, items);
    BodyEntries(form, total, paymentMethod, token, items);
    BodyKeysDistinct(form, total, paymentMethod, token, items);
    LookupAt(b, 5);
    LookupAt(b, 6);
    LookupAt(b, 7);
    assert b[5].key == FullNameField && b[6].key == EmailField;
    forall i | 0 <= i < |b| ensures b[i].key != GuestNameField && b[i].key != GuestEmailField {
    }
  }

  /** The contact keys of a guest's body. */
  lemma {:induction false} GuestContact(form: CheckoutForm, total: int, paymentMethod: string, items: seq<CartLine>)
    ensures var b := OrderBody(form, total, paymentMethod, "", items);
      Lookup(b, GuestNameField) == Some(JText(form.name)) && Lookup(b, GuestEmailField) == Some(JText(form.email)) &&
      Lookup(b, FullNameField).None? && Lookup(b, EmailField).None? &&
      Lookup(b, PhoneField) == Some(JText(form.phone))
  {
    var b := OrderBody(form, total, paymentMethod, "", items);
    BodyEntries(form, total, paymentMethod, "", items);
    BodyKeysDistinct(form, total, paymentMethod, "", items);
    LookupAt(b, 5);
    LookupAt(b, 6);
    LookupAt(b, 7);
    assert b[5].key == GuestNameField && b[6].key == GuestEmailField;
    forall i | 0 <= i < |b| ensures b[i].key != FullNameField && b[i].key != EmailField {
    }
  }

  /** The order's own keys are always in the body, with the total, the form's address, city
      and pincode, the payment method and the cart lines. */
  lemma {:induction false} OrderBodyOrder(form: CheckoutForm, total: int, paymentMethod: string, token: string, items: seq<CartLine>)
    ensures var b := OrderBody(form, total, paymentMethod, token, items);
      Lookup(b, TotalPriceField) == Some(JNumber(total)) &&
      Lookup(b, ShippingAddressField) == Some(JText(form.address)) &&
      Lookup(b, CityField) == Some(JText(form.city)) &&
      Lookup(b, PincodeField) == Some(JText(form.pincode)) &&
      Lookup(b, PaymentMethodField) == Some(JText(paymentMethod)) &&
      Lookup(b, ItemsField) == Some(JLines(items))
  {
    var b := OrderBody(form, total, paymentMethod, token, items);
    BodyEntries(form, total, paymentMethod, token, items);
    BodyKeysDistinct(form, total, paymentMethod, token, items);
    LookupAt(b, 0);
    LookupAt(b, 1);
    LookupAt(b, 2);
    LookupAt(b, 3);
    LookupAt(b, 4);
    LookupAt(b, 8);
  }

  /** One request header. */
  datatype Header = Header(name: string, value: string)

  /** The header's value, if the request has that header. */
  function HeaderValue(headers: seq<Header>, name: string): Option<string> {
    if headers == [] then None
    else if headers[0].name == name then Some(headers[0].value)
    else HeaderValue(headers[1..], name)
  }

  /** The headers of `saveOrder`: the JSON content type, and the bearer token when there is one. */
  function OrderHeaders(token: string): seq<Header> {
    [Header("Content-Type", "application/json")] +
    (if token != "" then [Header("Authorization", "Bearer " + token)] else [])
  }

  /** The order is posted with an `Authorization` header exactly when there is a token, and it
      carries that token; the content type is always JSON. */
  lemma {:induction false} AuthorizationIffToken(token: string)
    ensures HeaderValue(OrderHeaders(token), "Authorization").Some? <==> token != ""
    ensures token != "" ==> HeaderValue(OrderHeaders(token), "Authorization") == Some("Bearer " + token)
    ensures HeaderValue(OrderHeaders(token), "Content-Type") == Some("application/json")
  {
    var h := OrderHeaders(token);
    if token != "" {
      assert h[1..] == [Header("Authorization", "Bearer " + token)];
      assert h[1..][1..] == [];
    } else {
      assert h[1..] == [];
    }
  }

  /** How a backend call ends: an OK response, a non-OK one, or a thrown error with its
      message (a network failure). */
  datatype Response = Success | NotOk | Thrown(message: string)

  /** The message the caught error carries: the text thrown on a non-OK response, or the
      network error's own. */
  function FailureMessage(r: Response, notOkText: string): (m: string)
    requires !r.Success?
    ensures r.NotOk? ==> m == notOkText
    ensures r.Thrown? ==> m == r.message
  {
    if r.NotOk? then notOkText else r.message
  }

  /** What `POST /payments/razorpay` answers: an order whose `id` may be missing (""), or a
      refusal with the body's `error` text ("" when absent) and the status code. */
  datatype CreateReply = Created(orderId: string) | CreateRefused(error: string, status: int) | CreateThrown(message: string)

  /** The message a failed Razorpay initialisation alerts, or `None` when the widget opens:
      the refusal's error or status, a missing order id, or a script that did not load. */
  function InitFailure(created: CreateReply, scriptLoaded: bool): (m: Option<string>)
    ensures m.None? <==> created.Created? && created.orderId != "" && scriptLoaded
    ensures created.CreateRefused? && created.error != "" ==> m == Some(created.error)
    ensures created.CreateRefused? && created.error == "" ==> m == Some("Server error: " + IntToString(created.status))
    ensures created.Created? && created.orderId == "" ==> m == Some("Invalid order data from server")
    ensures created.Created? && created.orderId != "" && !scriptLoaded ==> m == Some("Unable to load Razorpay script")
  {
    match created
    case CreateRefused(error, status) => Some(if error != "" then error else "Server error: " + IntToString(status))
    case CreateThrown(message) => Some(message)
    case Created(id) =>
      if id == "" then Some("Invalid order data from server")
      else if !scriptLoaded then Some("Unable to load Razorpay script")
      else None
  }

  /** What the page asks of the backend. */
  datatype CheckoutRequest =
    | SaveOrder(headers: seq<Header>, body: seq<Entry>)
    | CreatePayment(amount: int)
    | VerifyPayment(orderId: string)

  class CheckoutPage {
    /** The auth store's token ("" when there is none) and user. */
    const token: string
    const user: Option<User>
    const cart: Cart
    var loading: bool
    var paymentMethod: string
    var form: CheckoutForm
    var isGuest: bool
    /** The Razorpay order whose widget is open, if any. */
    var widgetOrder: Option<string>
    /** The last `alert` shown, and where the page navigated. */
    var alert: Option<string>
    var navigatedTo: Option<string>
    ghost var requests: seq<CheckoutRequest>

    /** The page on first render: cash on delivery, an empty form, and "guest" ticked exactly
        when there is no token. */
    constructor (token: string, user: Option<User>, cart: Cart)
      ensures this.token == token && this.user == user && this.cart == cart
      ensures !loading && paymentMethod == "cod" && form == EmptyForm && (isGuest <==> token == "")
      ensures widgetOrder.None? && alert.None? && navigatedTo.None? && requests == []
    {
      this.token := token;
      this.user := user;
      this.cart := cart;
      loading := false;
      paymentMethod := "cod";
      form := EmptyForm;
      isGuest := token == "";
      widgetOrder := None;
      alert := None;
      navigatedTo := None;
      requests := [];
    }

    method Change(k: FormKey, value: string)
      modifies this
      ensures form == SetField(old(form), k, value)
      ensures paymentMethod == old(paymentMethod) && loading == old(loading) && requests == old(requests)
      ensures isGuest == old(isGuest) && widgetOrder == old(widgetOrder) && alert == old(alert) &&
        navigatedTo == old(navigatedTo)
    {
      form := SetField(form, k, value);
    }

    /** One of the payment radios. */
    method SelectMethod(m: string)
      modifies this
      ensures paymentMethod == m && form == old(form) && requests == old(requests)
      ensures loading == old(loading) && isGuest == old(isGuest) && widgetOrder == old(widgetOrder) &&
        alert == old(alert) && navigatedTo == old(navigatedTo)
    {
      paymentMethod := m;
    }

    /** The guest checkbox, shown only without a token; the order body depends on the token
        alone, so ticking it changes no request. */
    method SetGuest(checked: bool)
      modifies this
      ensures isGuest == checked && form == old(form) && paymentMethod == old(paymentMethod) && requests == old(requests)
      ensures loading == old(loading) && widgetOrder == old(widgetOrder) && alert == old(alert) &&
        navigatedTo == old(navigatedTo)
    {
      isGuest := checked;
    }

    /** `saveOrder(paymentMethod)` with the response it gets: the order is posted with the
        current form, the cart's total and the cart's lines. */
    method SaveOrderCall(method': string, saved: Response)
      modifies this
      ensures requests == old(requests) + [SaveOrder(OrderHeaders(token), OrderBody(form, TotalPrice(cart.items), method', token, cart.items))]
      ensures form == old(form) && loading == old(loading) && alert == old(alert) && navigatedTo == old(navigatedTo)
      ensures paymentMethod == old(paymentMethod) && widgetOrder == old(widgetOrder)
      ensures isGuest == old(isGuest)
    {
      requests := requests + [SaveOrder(OrderHeaders(token), OrderBody(form, cart.Total(), method', token, cart.items))];
    }

    /** `handleCOD`: the order is saved first; only a successful save clears the cart and
        leaves for the account page. `loading` is false afterwards either way. */
    method PayOnDelivery(saved: Response)
      requires cart.Valid()
      modifies this, cart
      ensures cart.Valid() && !loading && form == old(form)
      ensures requests == old(requests) + [SaveOrder(OrderHeaders(token), OrderBody(form, TotalPrice(old(cart.items)), "cod", token, old(cart.items)))]
      ensures saved.Success? ==>
        cart.items == [] && cart.requests == old(cart.requests) + SendIf(BearerOf(user, token), ClearItems) &&
        alert == Some("Order placed successfully with Cash on Delivery!") && navigatedTo == Some("/myaccount")
      ensures !saved.Success? ==>
        cart.items == old(cart.items) && cart.requests == old(cart.requests) &&
        alert == Some("Failed to place COD order: " + FailureMessage(saved, "Failed to save order")) &&
        navigatedTo == old(navigatedTo)
      ensures paymentMethod == old(paymentMethod) && isGuest == old(isGuest) &&
        widgetOrder == old(widgetOrder)
    {
      loading := true;
      SaveOrderCall("cod", saved);
      if saved.Success? {
        cart.Clear(BearerOf(user, token));
        alert := Some("Order placed successfully with Cash on Delivery!");
        navigatedTo := Some("/myaccount");
      } else {
        alert := Some("Failed to place COD order: " + FailureMessage(saved, "Failed to save order"));
      }
      loading := false;
    }

    /** `handleRazorpay` up to the widget: a payment order for the total in paise is created;
        when the backend answers with an order id and the script loads, the widget opens and
        `loading` stays on until it is dismissed or paid; otherwise the failure is alerted and
        `loading` ends. Nothing is saved and the cart is untouched. */
    method StartPayment(created: CreateReply, scriptLoaded: bool)
      modifies this
      ensures requests == old(requests) + [CreatePayment(TotalPrice(cart.items) * 100)]
      ensures InitFailure(created, scriptLoaded).None? ==> loading && widgetOrder == Some(created.orderId) && alert == old(alert)
      ensures InitFailure(created, scriptLoaded).Some? ==>
        !loading && widgetOrder == old(widgetOrder) && alert == Some("Payment initialization failed: " + InitFailure(created, scriptLoaded).value)
      ensures form == old(form) && navigatedTo == old(navigatedTo)
      ensures paymentMethod == old(paymentMethod) && isGuest == old(isGuest)
    {
      loading := true;
      requests := requests + [CreatePayment(cart.Total() * 100)];
      var failure := InitFailure(created, scriptLoaded);
      if failure.Some? {
        alert := Some("Payment initialization failed: " + failure.value);
        loading := false;
      } else {
        widgetOrder := Some(created.orderId);
      }
    }

    /** The widget's `ondismiss`. */
    method Dismiss()
      modifies this
      ensures !loading && requests == old(requests) && form == old(form) && widgetOrder == old(widgetOrder)
      ensures paymentMethod == old(paymentMethod) && isGuest == old(isGuest) && alert == old(alert) &&
        navigatedTo == old(navigatedTo)
    {
      loading := false;
    }

    /** The widget's `handler` once a payment is made: the payment is verified first; only
        after a successful verification is the order saved, and only after a successful save
        is the cart cleared and the page left. */
    method PaymentMade(orderId: string, verified: Response, saved: Response)
      requires cart.Valid()
      modifies this, cart
      ensures cart.Valid() && form == old(form) && loading == old(loading)
      ensures !verified.Success? ==>
        requests == old(requests) + [VerifyPayment(orderId)] &&
        cart.items == old(cart.items) && cart.requests == old(cart.requests) &&
        alert == Some("Payment processing error: " + FailureMessage(verified, "Payment verification failed")) &&
        navigatedTo == old(navigatedTo)
      ensures verified.Success? ==>
        requests == old(requests) + [VerifyPayment(orderId),
          SaveOrder(OrderHeaders(token), OrderBody(form, TotalPrice(old(cart.items)), "razorpay", token, old(cart.items)))]
      ensures verified.Success? && saved.Success? ==>
        cart.items == [] && cart.requests == old(cart.requests) + SendIf(BearerOf(user, token), ClearItems) &&
        alert == Some("Payment successful! Order placed.") && navigatedTo == Some("/myaccount")
      ensures verified.Success? && !saved.Success? ==>
        cart.items == old(cart.items) && cart.requests == old(cart.requests) &&
        alert == Some("Payment processing error: " + FailureMessage(saved, "Failed to save order")) &&
        navigatedTo == old(navigatedTo)
      ensures paymentMethod == old(paymentMethod) && isGuest == old(isGuest) &&
        widgetOrder == old(widgetOrder)
    {
      requests := requests + [VerifyPayment(orderId)];
      if !verified.Success? {
        alert := Some("Payment processing error: " + FailureMessage(verified, "Payment verification failed"));
        return;
      }
      SaveOrderCall("razorpay", saved);
      if !saved.Success? {
        alert := Some("Payment processing error: " + FailureMessage(saved, "Failed to save order"));
        return;
      }
      cart.Clear(BearerOf(user, token));
      alert := Some("Payment successful! Order placed.");
      navigatedTo := Some("/myaccount");
    }

    /** `handleSubmit`: an incomplete form is refused with an alert before anything is sent;
        otherwise "cod" pays on delivery and every other method goes to Razorpay. */
    method Submit(saved: Response, created: CreateReply, scriptLoaded: bool)
      requires cart.Valid()
      modifies this, cart
      ensures cart.Valid() && form == old(form)
      ensures !Complete(old(form)) ==>
        alert == Some("Please fill name, email, phone and address") && requests == old(requests) &&
        cart.items == old(cart.items) && cart.requests == old(cart.requests) && loading == old(loading) &&
        widgetOrder == old(widgetOrder) && navigatedTo == old(navigatedTo)
      ensures Complete(old(form)) && old(paymentMethod) == "cod" ==>
        requests == old(requests) + [SaveOrder(OrderHeaders(token), OrderBody(form, TotalPrice(old(cart.items)), "cod", token, old(cart.items)))] &&
        !loading && widgetOrder == old(widgetOrder)
      ensures Complete(old(form)) && old(paymentMethod) == "cod" && saved.Success? ==>
        cart.items == [] && cart.requests == old(cart.requests) + SendIf(BearerOf(user, token), ClearItems) &&
        alert == Some("Order placed successfully with Cash on Delivery!") && navigatedTo == Some("/myaccount")
      ensures Complete(old(form)) && old(paymentMethod) == "cod" && !saved.Success? ==>
        cart.items == old(cart.items) && cart.requests == old(cart.requests) &&
        alert == Some("Failed to place COD order: " + FailureMessage(saved, "Failed to save order")) &&
        navigatedTo == old(navigatedTo)
      ensures Complete(old(form)) && old(paymentMethod) != "cod" ==>
        requests == old(requests) + [CreatePayment(TotalPrice(old(cart.items)) * 100)] &&
        cart.items == old(cart.items) && cart.requests == old(cart.requests) && navigatedTo == old(navigatedTo)
      ensures Complete(old(form)) && old(paymentMethod) != "cod" && InitFailure(created, scriptLoaded).None? ==>
        loading && widgetOrder == Some(created.orderId) && alert == old(alert)
      ensures Complete(old(form)) && old(paymentMethod) != "cod" && InitFailure(created, scriptLoaded).Some? ==>
        !loading && widgetOrder == old(widgetOrder) &&
        alert == Some("Payment initialization failed: " + InitFailure(created, scriptLoaded).value)
      ensures paymentMethod == old(paymentMethod) && isGuest == old(isGuest)
    {
      if !Complete(form) {
        alert := Some("Please fill name, email, phone and address");
        return;
      }
      if paymentMethod == "cod" {
        PayOnDelivery(saved);
      } else {
        StartPayment(created, scriptLoaded);
      }
    }
  }
}
