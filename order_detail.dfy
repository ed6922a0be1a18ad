/** The admin page of one order: it shows the order, lets the admin edit its customer,
    payment, status and shipping fields, and saves them back. */
module OrderDetail {
  import opened Wrappers
  import opened Forms
  import opened Orders

  /** The eight inputs of the edit form, named as their `name` attributes. */
  datatype FormKey = StatusKey | PaymentMethodKey | ShippingAddressKey | CityKey | PincodeKey | EmailKey | PhoneKey | FullNameKey

  /** `formData`. */
  datatype OrderForm = OrderForm(
    status: string,
    paymentMethod: string,
    shippingAddress: string,
    city: string,
    pincode: string,
    email: string,
    phone: string,
    fullName: string)

  const EmptyForm := OrderForm("", "", "", "", "", "", "", "")

  /** The value of input `k`. */
  function Get(f: OrderForm, k: FormKey): string {
    match k
    case StatusKey => f.status
    case PaymentMethodKey => f.paymentMethod
    case ShippingAddressKey => f.shippingAddress
    case CityKey => f.city
    case PincodeKey => f.pincode
    case EmailKey => f.email
    case PhoneKey => f.phone
    case FullNameKey => f.fullName
  }

  /** `handleInputChange`: `{ ...prev, [name]: value }`. */
  function SetField(f: OrderForm, k: FormKey, value: string): (g: OrderForm)
    ensures Get(g, k) == value
    ensures forall other: FormKey :: other != k ==> Get(g, other) == Get(f, other)
  {
    match k
    case StatusKey => f.(status := value)
    case PaymentMethodKey => f.(paymentMethod := value)
    case ShippingAddressKey => f.(shippingAddress := value)
    case CityKey => f.(city := value)
    case PincodeKey => f.(pincode := value)
    case EmailKey => f.(email := value)
    case PhoneKey => f.(phone := value)
    case FullNameKey => f.(fullName := value)
  }

  /** Two forms that agree on every input are the same form. */
  lemma FormExt(f: OrderForm, g: OrderForm)
    requires forall k: FormKey :: Get(f, k) == Get(g, k)
    ensures f == g
  {
    assert Get(f, StatusKey) == Get(g, StatusKey) && Get(f, PaymentMethodKey) == Get(g, PaymentMethodKey);
    assert Get(f, ShippingAddressKey) == Get(g, ShippingAddressKey) && Get(f, CityKey) == Get(g, CityKey);
    assert Get(f, PincodeKey) == Get(g, PincodeKey) && Get(f, EmailKey) == Get(g, EmailKey);
    assert Get(f, PhoneKey) == Get(g, PhoneKey) && Get(f, FullNameKey) == Get(g, FullNameKey);
  }

  /** Typing the value an input already holds changes nothing, and a later edit of the same
      input overrides an earlier one. */
  lemma SetFieldLaws(f: OrderForm, k: FormKey, v: string, w: string)
    ensures SetField(f, k, Get(f, k)) == f
    ensures SetField(SetField(f, k, v), k, w) == SetField(f, k, w)
  {
    FormExt(SetField(f, k, Get(f, k)), f);
    FormExt(SetField(SetField(f, k, v), k, w), SetField(f, k, w));
  }

  /** The form as the loaded order initialises it: a missing status reads "pending", the
      email, phone and name fall back to the guest's, and everything else to "". */
  function FormOf(o: Order): (f: OrderForm)
    ensures f.status == (if o.status != "" then o.status else "pending")
    ensures f.paymentMethod == o.paymentMethod && f.shippingAddress == o.shippingAddress
    ensures f.city == o.city && f.pincode == o.pincode
    ensures f.email == (if o.email != "" then o.email else o.guestEmail)
    ensures f.phone == (if o.phone != "" then o.phone else o.phoneNumber)
    ensures f.fullName == (if o.fullName != "" then o.fullName else o.guestName)
  {
    OrderForm(
      DisplayedStatus(o.status),
      o.paymentMethod, o.shippingAddress, o.city, o.pincode,
      if o.email != "" then o.email else o.guestEmail,
      if o.phone != "" then o.phone else o.phoneNumber,
      if o.fullName != "" then o.fullName else o.guestName)
  }

  /** `{ ...order, ...formData }`: the form's eight keys override the order's, every other
      key of the order is kept. */
  function Merge(o: Order, f: OrderForm): (m: Order)
    ensures m.status == f.status && m.paymentMethod == f.paymentMethod && m.shippingAddress == f.shippingAddress
    ensures m.city == f.city && m.pincode == f.pincode && m.email == f.email && m.phone == f.phone && m.fullName == f.fullName
    ensures m.id == o.id && m.address == o.address && m.guestEmail == o.guestEmail && m.phoneNumber == o.phoneNumber
    ensures m.guestName == o.guestName && m.customerName == o.customerName && m.userId == o.userId
    ensures m.totalAmount == o.totalAmount && m.amount == o.amount && m.totalPrice == o.totalPrice
  {
    o.(status := f.status, paymentMethod := f.paymentMethod, shippingAddress := f.shippingAddress,
       city := f.city, pincode := f.pincode, email := f.email, phone := f.phone, fullName := f.fullName)
  }

  /** Saving is idempotent, and the form rebuilt from a saved order is the saved form unless
      a cleared email, phone or name lets a guest value show through again (or a cleared status
      reads "pending"). */
  lemma MergeLaws(o: Order, f: OrderForm)
    ensures Merge(Merge(o, f), f) == Merge(o, f)
    ensures (f.status != "" && (f.email != "" || o.guestEmail == "") && (f.phone != "" || o.phoneNumber == "") &&
             (f.fullName != "" || o.guestName == "")) ==> FormOf(Merge(o, f)) == f
  {
  }

  /** The "Name" line: the customer's name, else the guest's, else a placeholder chosen by
      whether the order has a (truthy) user id. */
  function DisplayName(o: Order): (name: string)
    ensures o.fullName != "" ==> name == o.fullName
    ensures o.fullName == "" && o.guestName != "" ==> name == o.guestName
    ensures o.fullName == "" && o.guestName == "" ==>
      name == (if o.userId.Id? && o.userId.id != 0 then "Authenticated User" else "Guest Customer")
  {
    if o.fullName != "" then o.fullName
    else if o.guestName != "" then o.guestName
    else if o.userId.Id? && o.userId.id != 0 then "Authenticated User"
    else "Guest Customer"
  }

  /** What `GET /orders/admin/order-detail/:id` answers. */
  datatype DetailReply = Detail(order: Order, items: Option<seq<string>>) | DetailFailed

  datatype OrderRequest = FetchDetail(orderId: int) | SaveOrder(orderId: int, form: OrderForm) | DeleteOrder(orderId: int)

  class OrderPage {
    const orderId: int
    var order: Option<Order>
    var items: seq<string>
    var loading: bool
    var error: Option<string>
    var editing: bool
    var form: OrderForm
    var saving: bool
    var deleteConfirm: bool
    var alert: Option<string>
    var navigatedTo: Option<string>
    ghost var requests: seq<OrderRequest>

    constructor (orderId: int)
      ensures this.orderId == orderId && order.None? && items == [] && loading && error.None?
      ensures !editing && form == EmptyForm && !saving && !deleteConfirm && requests == []
      ensures alert.None? && navigatedTo.None?
    {
      this.orderId := orderId;
      order := None;
      items := [];
      loading := true;
      error := None;
      editing := false;
      form := EmptyForm;
      saving := false;
      deleteConfirm := false;
      alert := None;
      navigatedTo := None;
      requests := [];
    }

    /** `fetchOrderDetail`: a reply sets the order, its items (`items || []`) and the form. */
    method Load(reply: DetailReply)
      modifies this
      ensures requests == old(requests) + [FetchDetail(orderId)] && !loading
      ensures reply.Detail? ==>
        (order == Some(reply.order) && items == reply.items.GetOr([]) && form == FormOf(reply.order) && error.None?)
      ensures reply.DetailFailed? ==>
        order == old(order) && items == old(items) && form == old(form) && error == Some("Failed to load order details")
      ensures editing == old(editing)
      ensures saving == old(saving) && deleteConfirm == old(deleteConfirm) && alert == old(alert) &&
        navigatedTo == old(navigatedTo)
    {
      loading := true;
      error := None;
      requests := requests + [FetchDetail(orderId)];
      if reply.Detail? {
        order := Some(reply.order);
        items := reply.items.GetOr([]);
        form := FormOf(reply.order);
      } else {
        error := Some("Failed to load order details");
      }
      loading := false;
    }

    method StartEdit()
      modifies this
      ensures editing && form == old(form) && order == old(order) && requests == old(requests)
      ensures items == old(items) && loading == old(loading) && error == old(error) &&
        saving == old(saving) && deleteConfirm == old(deleteConfirm) && alert == old(alert) &&
        navigatedTo == old(navigatedTo)
    {
      editing := true;
    }

    /** The cancel button leaves edit mode and keeps the typed values. */
    method CancelEdit()
      modifies this
      ensures !editing && form == old(form) && order == old(order) && requests == old(requests)
      ensures items == old(items) && loading == old(loading) && error == old(error) &&
        saving == old(saving) && deleteConfirm == old(deleteConfirm) && alert == old(alert) &&
        navigatedTo == old(navigatedTo)
    {
      editing := false;
    }

    /** `handleInputChange` for input `k`. */
    method Input(k: FormKey, value: string)
      modifies this
      ensures form == SetField(old(form), k, value)
      ensures order == old(order) && editing == old(editing) && requests == old(requests)
      ensures items == old(items) && loading == old(loading) && error == old(error) &&
        saving == old(saving) && deleteConfirm == old(deleteConfirm) && alert == old(alert) &&
        navigatedTo == old(navigatedTo)
    {
      form := SetField(form, k, value);
    }

    /** `handleSave`: the form is sent; on success the shown order becomes the merge of the old
        order and the form and edit mode ends, on failure nothing changes; either way an alert
        reports the outcome. The save button is only on the page once an order has loaded. */
    method Save(reply: Reply)
      requires order.Some?
      modifies this
      ensures requests == old(requests) + [SaveOrder(orderId, old(form))] && !saving
      ensures reply.Ok? ==> order == Some(Merge(old(order).value, old(form))) && !editing
      ensures reply.Failed? ==> order == old(order) && editing == old(editing)
      ensures alert == Some(if reply.Ok? then "Order updated successfully!" else "Failed to update order")
      ensures form == old(form) && navigatedTo == old(navigatedTo)
      ensures items == old(items) && loading == old(loading) && error == old(error) &&
        deleteConfirm == old(deleteConfirm)
    {
      saving := true;
      requests := requests + [SaveOrder(orderId, form)];
      if reply.Ok? {
        order := Some(Merge(order.value, form));
        editing := false;
        alert := Some("Order updated successfully!");
      } else {
        alert := Some("Failed to update order");
      }
      saving := false;
    }

    method AskDelete()
      modifies this
      ensures deleteConfirm && order == old(order) && requests == old(requests)
      ensures items == old(items) && loading == old(loading) && error == old(error) &&
        editing == old(editing) && form == old(form) && saving == old(saving) && alert == old(alert) &&
        navigatedTo == old(navigatedTo)
    {
      deleteConfirm := true;
    }

    method DismissDelete()
      modifies this
      ensures !deleteConfirm && order == old(order) && requests == old(requests)
      ensures items == old(items) && loading == old(loading) && error == old(error) &&
        editing == old(editing) && form == old(form) && saving == old(saving) && alert == old(alert) &&
        navigatedTo == old(navigatedTo)
    {
      deleteConfirm := false;
    }

    /** `handleDelete`: the order is deleted; on success an alert confirms it and the page
        navigates back to the dashboard, on failure an alert says so and the page stays. */
    method Delete(reply: Reply)
      modifies this
      ensures requests == old(requests) + [DeleteOrder(orderId)]
      ensures reply.Ok? ==> alert == Some("Order deleted successfully!") && navigatedTo == Some("/admin")
      ensures reply.Failed? ==> alert == Some("Failed to delete order") && navigatedTo == old(navigatedTo)
      ensures order == old(order) && form == old(form)
      ensures items == old(items) && loading == old(loading) && error == old(error) &&
        editing == old(editing) && saving == old(saving) && deleteConfirm == old(deleteConfirm)
    {
      requests := requests + [DeleteOrder(orderId)];
      if reply.Ok? {
        alert := Some("Order deleted successfully!");
        navigatedTo := Some("/admin");
      } else {
        alert := Some("Failed to delete order");
      }
    }
  }
}
