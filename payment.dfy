/**
 * The payment panel of src/components/Payment.jsx: a one-entry table of
 * discount codes, the discount the panel holds as state, the discounted
 * total, and the pay handler that turns a non-empty order into a payload and
 * then clears the order.
 */
module Payment {
  import opened Wrappers
  import opened Cart
  import opened OrderTotal
  import AppState

  /** `validDiscountCodes`: code to rate. */
  const ValidDiscountCodes: map<string, real> := map["EMMETT" := 0.1]

  /** The lookup is truthy: the code is a key of the table and its rate is not 0. */
  predicate IsValidCode(code: string) {
    code in ValidDiscountCodes && ValidDiscountCodes[code] != 0.0
  }

  /** The rate `handleApplyDiscount` stores for `code`: the table's rate, otherwise 0. */
  function DiscountFor(code: string): (rate: real)
    ensures IsValidCode(code) <==> code == "EMMETT"
    ensures code == "EMMETT" ==> rate == 0.1
    ensures code != "EMMETT" ==> rate == 0.0
  {
    if IsValidCode(code) then ValidDiscountCodes[code] else 0.0
  }

  /** `totalWithDiscount = totalAmount - totalAmount * discount` */
  function TotalWithDiscount(totalAmount: real, discount: real): (r: real)
    ensures r == totalAmount * (1.0 - discount)
    ensures discount == 0.0 ==> r == totalAmount
    ensures 0.0 <= discount < 1.0 && totalAmount >= 0.0 ==> 0.0 <= r <= totalAmount
  {
    assert 0.0 <= discount && totalAmount >= 0.0 ==> totalAmount * discount >= 0.0;
    assert discount < 1.0 && totalAmount >= 0.0 ==> totalAmount * discount <= totalAmount;
    totalAmount - totalAmount * discount
  }

  /** One entry of the payload's `orderItems`. */
  datatype OrderItem = OrderItem(name: string, price: real, quantity: int, total: real)

  /** The payload `handlePay` builds. */
  datatype OrderData = OrderData(orderItems: seq<OrderItem>, totalAmount: real)

  /** `order.map(item => ({ name, price, quantity, total: price * quantity }))` */
  function OrderItems(order: seq<Line>): (items: seq<OrderItem>)
    ensures |items| == |order|
    ensures forall i :: 0 <= i < |order| ==>
      items[i].name == order[i].name && items[i].price == order[i].price &&
      items[i].quantity == order[i].quantity && items[i].total == order[i].price * (order[i].quantity as real)
  {
    seq(|order|, i requires 0 <= i < |order| =>
      OrderItem(order[i].name, order[i].price, order[i].quantity, LineAmount(order[i])))
  }

  /** The sum of the payload's per-line totals. */
  function ItemsTotal(items: seq<OrderItem>): real {
    if |items| == 0 then 0.0 else items[0].total + ItemsTotal(items[1..])
  }

  /** The per-line totals of the payload add up to the order total. */
  lemma {:induction false} ItemTotalsMatchOrderTotal(order: seq<Line>)
    ensures ItemsTotal(OrderItems(order)) == TotalAmount(order)
  {
    if |order| > 0 {
      ItemTotalsMatchOrderTotal(order[1..]);
      assert OrderItems(order)[1..] == OrderItems(order[1..]);
    }
  }

  /**
   * What `handlePay` produces: nothing for an empty order, otherwise the
   * per-line entries and the discounted total.
   */
  function Checkout(order: seq<Line>, discount: real): (payload: Option<OrderData>)
    ensures payload.None? <==> |order| == 0
    ensures payload.Some? ==> |payload.value.orderItems| == |order|
    ensures payload.Some? ==> payload.value.orderItems == OrderItems(order)
    ensures payload.Some? ==> payload.value.totalAmount == TotalWithDiscount(TotalAmount(order), discount)
    ensures payload.Some? ==>
      payload.value.totalAmount == ItemsTotal(payload.value.orderItems) * (1.0 - discount)
  {
    if |order| == 0 then None
    else
      ItemTotalsMatchOrderTotal(order);
      Some(OrderData(OrderItems(order), TotalWithDiscount(TotalAmount(order), discount)))
  }

  /**
   * For a well-formed order with non-negative prices and a rate in [0, 1),
   * the discounted total lies between 0 and the raw total.
   */
  lemma DiscountedTotalBounds(order: seq<Line>, discount: real)
    requires PositiveQuantities(order)
    requires forall i :: 0 <= i < |order| ==> order[i].price >= 0.0
    requires 0.0 <= discount < 1.0
    ensures 0.0 <= TotalWithDiscount(TotalAmount(order), discount) <= TotalAmount(order)
  {
    TotalNonNegative(order);
  }

  /** The sample order with code "EMMETT" costs 144. */
  lemma EmmettScenario()
    ensures TotalWithDiscount(TotalAmount([Line(1, "Tacos", 50.0, 2), Line(2, "Enchiladas", 60.0, 1)]),
                              DiscountFor("EMMETT")) == 144.0
  {
    SampleTotal();
  }

  /** The panel's own state: the typed code and the applied rate. */
  class PaymentPanel {
    var discountCode: string
    var discount: real

    /** The rate is always one a code can yield. */
    ghost predicate Valid()
      reads this
    {
      0.0 <= discount < 1.0
    }

    constructor ()
      ensures Valid() && discountCode == "" && discount == 0.0
    {
      discountCode := "";
      discount := 0.0;
    }

    /** The input's `onChange`. */
    method SetDiscountCode(code: string)
      modifies this`discountCode
      ensures discountCode == code
    {
      discountCode := code;
    }

    /**
     * `handleApplyDiscount`: a valid code sets its rate, anything else sets 0,
     * whatever was applied before. `applied` tells which notice is shown.
     */
    method HandleApplyDiscount() returns (applied: bool)
      modifies this`discount
      ensures Valid()
      ensures applied <==> discountCode == "EMMETT"
      ensures discount == DiscountFor(discountCode)
    {
      if IsValidCode(discountCode) {
        discount := ValidDiscountCodes[discountCode];
        applied := true;
      } else {
        discount := 0.0;
        applied := false;
      }
    }

    /**
     * `handlePay`: an empty order returns at once and stays as it is; any
     * other order yields its payload and is cleared.
     */
    method HandlePay(app: AppState.App) returns (payload: Option<OrderData>)
      requires Valid() && app.Valid()
      modifies app
      ensures app.Valid()
      ensures payload == Checkout(old(app.order), discount)
      ensures |old(app.order)| == 0 ==> app.order == old(app.order)
      ensures |old(app.order)| > 0 ==> app.order == []
      ensures payload.Some? && (forall i :: 0 <= i < |old(app.order)| ==> old(app.order)[i].price >= 0.0) ==>
        0.0 <= payload.value.totalAmount <= TotalAmount(old(app.order))
    {
      if |app.order| == 0 {
        return None;
      }
      if forall i :: 0 <= i < |app.order| ==> app.order[i].price >= 0.0 {
        DiscountedTotalBounds(app.order, discount);
      }
      var data := OrderData(OrderItems(app.order), TotalWithDiscount(TotalAmount(app.order), discount));
      app.ClearOrder();
      payload := Some(data);
    }
  }
}
