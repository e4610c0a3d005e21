/** The order schema: record shape, status enum, defaults and the checks `Order.create` runs. */
module OrderModel {
  import opened Js

  /** One element of `items`; the schema declares `items: []` and never looks inside. */
  datatype OrderItem = OrderItem(name: string, price: int, quantity: int)

  /** The shipping address is an opaque object; `{}` is the schema default. */
  datatype Address = Address(fields: map<string, string>)

  const EmptyAddress := Address(map[])

  datatype Order = Order(
    userId: string,
    items: seq<OrderItem>,
    address: Address,
    amount: int,
    status: string,
    paymentMethod: string,
    payment: bool,
    date: int)

  const OrderPlaced := "Order Placed"
  const Packing := "Packing"
  const Shipped := "Shipped"
  const OutForDelivery := "Out for Delivery"
  const Delivered := "Delivered"
  const Cancelled := "Cancelled"

  /** The six values of the `status` enum, also the list `updateOrderStatus` accepts. */
  const Statuses: seq<string> := [OrderPlaced, Packing, Shipped, OutForDelivery, Delivered, Cancelled]

  /** The status the Stripe webhook writes; it is not in the enum. */
  const Paid := "Paid"

  predicate InEnum(status: string) {
    status in Statuses
  }

  /** Everything a stored order must satisfy when it is validated. */
  predicate Valid(o: Order) {
    InEnum(o.status) && o.amount >= 0 && o.paymentMethod != ""
  }

  /**
   * The fields a controller passes to `Order.create`; `None` is a field left
   * undefined. `userId` and `date` are always supplied.
   */
  datatype Draft = Draft(
    userId: string,
    items: Option<seq<OrderItem>>,
    address: Option<Address>,
    amount: Option<int>,
    paymentMethod: string,
    payment: Option<bool>,
    date: int)

  /**
   * `Order.create(draft)`: defaults fill undefined fields (`items` [], `address` {},
   * `status` "Order Placed", `payment` false), then validation rejects a missing or
   * negative amount and an empty payment method. `None` is a ValidationError.
   */
  function Create(d: Draft): (r: Option<Order>)
    ensures r.Some? <==> d.amount.Some? && d.amount.value >= 0 && d.paymentMethod != ""
    ensures r.Some? ==> Valid(r.value)
    ensures r.Some? ==> r.value.status == OrderPlaced && r.value.payment == d.payment.GetOr(false)
    ensures r.Some? ==> r.value.userId == d.userId && r.value.amount == d.amount.value
                        && r.value.paymentMethod == d.paymentMethod && r.value.date == d.date
    ensures r.Some? ==> r.value.items == d.items.GetOr([]) && r.value.address == d.address.GetOr(EmptyAddress)
  {
    var o := Order(d.userId, d.items.GetOr([]), d.address.GetOr(EmptyAddress), d.amount.GetOr(0),
                   OrderPlaced, d.paymentMethod, d.payment.GetOr(false), d.date);
    if d.amount.Some? && Valid(o) then Some(o) else None
  }

  /** "Paid" is outside the enum, so an order carrying it no longer validates. */
  lemma PaidIsInvalid(o: Order)
    requires o.status == Paid
    ensures !Valid(o)
  {
    assert Paid != OrderPlaced && Paid != Packing && Paid != Shipped;
  }
}
