/**
 * The `order` state of the App component: every handler replaces the whole
 * list through `setOrder` with the result of one of the updaters in Cart.
 */
module AppState {
  import Cart

  class App {
    var order: seq<Cart.Line>

    /** Unique ids and no line at zero or below. */
    ghost predicate Valid()
      reads this
    {
      Cart.Valid(order)
    }

    /** `useState([])` */
    constructor ()
      ensures Valid() && order == []
    {
      order := [];
    }

    method AddToOrder(item: Cart.MenuItem)
      requires Valid()
      modifies this
      ensures Valid()
      ensures order == Cart.AddToOrder(old(order), item)
    {
      Cart.AddPreservesValid(order, item);
      order := Cart.AddToOrder(order, item);
    }

    method IncreaseQuantity(item: Cart.Line)
      requires Valid()
      modifies this
      ensures Valid()
      ensures order == Cart.IncreaseQuantity(old(order), item.id)
    {
      Cart.IncreasePreservesValid(order, item.id);
      order := Cart.IncreaseQuantity(order, item.id);
    }

    method DecreaseQuantity(item: Cart.Line)
      requires Valid()
      modifies this
      ensures Valid()
      ensures order == Cart.DecreaseQuantity(old(order), item.id)
    {
      Cart.DecreasePreservesValid(order, item.id);
      order := Cart.DecreaseQuantity(order, item.id);
    }

    method RemoveFromOrder(item: Cart.Line)
      requires Valid()
      modifies this
      ensures Valid()
      ensures order == Cart.RemoveFromOrder(old(order), item.id)
    {
      Cart.RemovePreservesValid(order, item.id);
      order := Cart.RemoveFromOrder(order, item.id);
    }

    method ClearOrder()
      modifies this
      ensures Valid() && order == []
    {
      order := [];
    }
  }
}
