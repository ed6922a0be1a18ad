/** The order record the admin pages and the account page display, and the status colour
    scheme they share. */
module Orders {

  /** `user_id` as the order rows carry it: guest rows from the `orders` table have no such
      key at all, rows of signed-in customers carry the id, which may also be null. */
  datatype UserIdField = Undefined | Null | Id(id: int)

  /** An order row; "" stands for a missing or null text and 0 for a missing amount. */
  datatype Order = Order(
    id: int,
    status: string,
    paymentMethod: string,
    shippingAddress: string,
    address: string,
    city: string,
    pincode: string,
    email: string,
    guestEmail: string,
    phone: string,
    phoneNumber: string,
    fullName: string,
    guestName: string,
    customerName: string,
    userId: UserIdField,
    totalAmount: int,
    amount: int,
    totalPrice: int)

  /** The colour of a status badge. */
  datatype Badge = Green | Yellow | Red | Blue

  /** The badge colour: green for a finished order, yellow for one under way, red for one that
      went wrong, and blue for any other status, the empty one included. */
  function StatusBadge(status: string): (b: Badge)
    ensures b == Green <==> status == "completed" || status == "success"
    ensures b == Yellow <==> status == "pending" || status == "processing"
    ensures b == Red <==> status == "cancelled" || status == "failed"
    ensures b == Blue <==> status !in {"completed", "success", "pending", "processing", "cancelled", "failed"}
  {
    if status == "completed" || status == "success" then Green
    else if status == "pending" || status == "processing" then Yellow
    else if status == "cancelled" || status == "failed" then Red
    else Blue
  }

  /** `order.status || "pending"`: the text shown in the badge. */
  function DisplayedStatus(status: string): (shown: string)
    ensures status != "" ==> shown == status
    ensures status == "" ==> shown == "pending"
  {
    if status != "" then status else "pending"
  }

  /** An order without a status reads "pending" but is coloured blue, because the colour is
      chosen from the raw status. */
  lemma MissingStatusShownPendingInBlue()
    ensures DisplayedStatus("") == "pending" && StatusBadge("") == Blue && StatusBadge("pending") == Yellow
  {
  }
}
