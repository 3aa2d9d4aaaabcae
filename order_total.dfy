/**
 * The running total shown by src/components/Order.jsx (and recomputed by the
 * payment panel): `order.reduce((total, item) => total + item.price * item.quantity, 0)`.
 */
module OrderTotal {
  import opened Cart

  /** The amount shown beside a line: price times quantity. */
  function LineAmount(l: Line): (amount: real)
    ensures l.price >= 0.0 && l.quantity >= 0 ==> amount >= 0.0
    ensures l.quantity == 1 ==> amount == l.price
    ensures l.quantity == 0 ==> amount == 0.0
  {
    l.price * (l.quantity as real)
  }

  /**
   * The left fold that `reduce` performs, starting from the accumulator `acc`;
   * it ends at the accumulator plus the reference sum.
   */
  function Reduce(order: seq<Line>, acc: real): (r: real)
    ensures r == acc + Sum(order)
  {
    if |order| == 0 then acc else Reduce(order[1..], acc + LineAmount(order[0]))
  }

  /** Reference definition: the sum of the line amounts. */
  function Sum(order: seq<Line>): real {
    if |order| == 0 then 0.0 else LineAmount(order[0]) + Sum(order[1..])
  }

  /** `totalAmount`: the sum over the lines of price times quantity, 0 for an empty order. */
  function TotalAmount(order: seq<Line>): (total: real)
    ensures total == Sum(order)
    ensures |order| == 0 ==> total == 0.0
  {
    Reduce(order, 0.0)
  }

  lemma {:induction false} SumAppend(a: seq<Line>, b: seq<Line>)
    ensures Sum(a + b) == Sum(a) + Sum(b)
  {
    if |a| == 0 {
      assert a + b == b;
    } else {
      assert (a + b)[1..] == a[1..] + b;
      SumAppend(a[1..], b);
    }
  }

  /** Taking one line out of the sum. */
  lemma SumWithout(b: seq<Line>, i: int)
    requires 0 <= i < |b|
    ensures Sum(b) == LineAmount(b[i]) + Sum(b[..i] + b[i + 1..])
  {
    assert b == b[..i] + [b[i]] + b[i + 1..];
    SumAppend(b[..i] + [b[i]], b[i + 1..]);
    SumAppend(b[..i], [b[i]]);
    SumAppend(b[..i], b[i + 1..]);
  }

  /** Taking one element out of both sides of a permutation leaves a permutation. */
  lemma PermutationWithout(a: seq<Line>, b: seq<Line>, i: int)
    requires multiset(a) == multiset(b)
    requires |a| > 0 && 0 <= i < |b| && b[i] == a[0]
    ensures multiset(a[1..]) == multiset(b[..i] + b[i + 1..])
  {
    var x := a[0];
    assert a == [x] + a[1..];
    assert b == b[..i] + [x] + b[i + 1..];
    calc {
      multiset(a[1..]);
      multiset(a) - multiset{x};
      multiset(b) - multiset{x};
      multiset(b[..i]) + multiset(b[i + 1..]);
      multiset(b[..i] + b[i + 1..]);
    }
  }

  /** The total does not depend on the order of the lines. */
  lemma {:induction false} TotalIsOrderIndependent(a: seq<Line>, b: seq<Line>)
    requires multiset(a) == multiset(b)
    ensures TotalAmount(a) == TotalAmount(b)
    decreases |a|
  {
    if |a| == 0 {
      assert |b| == |multiset(b)| == 0;
    } else {
      assert a[0] in multiset(b);
      var i :| 0 <= i < |b| && b[i] == a[0];
      PermutationWithout(a, b, i);
      TotalIsOrderIndependent(a[1..], b[..i] + b[i + 1..]);
      SumWithout(b, i);
    }
  }

  /** With non-negative prices and quantities the total is non-negative. */
  lemma {:induction false} TotalNonNegative(order: seq<Line>)
    requires forall i :: 0 <= i < |order| ==> order[i].price >= 0.0 && order[i].quantity >= 0
    ensures TotalAmount(order) >= 0.0
  {
    if |order| > 0 {
      TotalNonNegative(order[1..]);
      assert LineAmount(order[0]) >= 0.0;
    }
  }

  /** Replacing one line changes the total by the difference of the two line amounts. */
  lemma {:induction false} SumReplace(order: seq<Line>, k: int, x: Line)
    requires 0 <= k < |order|
    ensures Sum(order[k := x]) == Sum(order) - LineAmount(order[k]) + LineAmount(x)
  {
    if k > 0 {
      SumReplace(order[1..], k - 1, x);
      assert order[k := x][1..] == order[1..][k - 1 := x];
    }
  }

  /** One more of a line adds that line's unit price to the total. */
  lemma OneMoreAmount(l: Line, delta: int)
    ensures LineAmount(l.(quantity := l.quantity + delta)) == LineAmount(l) + l.price * (delta as real)
  {
  }

  /** Adding an item whose id has no line raises the total by the item's price. */
  lemma TotalAfterAddNew(order: seq<Line>, item: MenuItem)
    requires !HasLine(order, item.id)
    ensures TotalAmount(AddToOrder(order, item)) == TotalAmount(order) + item.price
  {
    AddAbsentAppends(order, item);
    SumAppend(order, [NewLine(item)]);
  }

  /** Adding an item whose id has a line raises the total by that line's unit price. */
  lemma TotalAfterAddMerge(order: seq<Line>, item: MenuItem, k: int)
    requires UniqueIds(order)
    requires 0 <= k < |order| && order[k].id == item.id
    ensures TotalAmount(AddToOrder(order, item)) == TotalAmount(order) + order[k].price
  {
    AddPresentMerges(order, item, k);
    SumReplace(order, k, order[k].(quantity := order[k].quantity + 1));
    OneMoreAmount(order[k], 1);
  }

  /** Increasing the line with that id raises the total by one unit price. */
  lemma TotalAfterIncrease(order: seq<Line>, id: int, k: int)
    requires UniqueIds(order)
    requires 0 <= k < |order| && order[k].id == id
    ensures TotalAmount(IncreaseQuantity(order, id)) == TotalAmount(order) + order[k].price
  {
    AdjustOneLine(order, id, 1, k);
    SumReplace(order, k, order[k].(quantity := order[k].quantity + 1));
    OneMoreAmount(order[k], 1);
  }

  /** Removing the line with that id lowers the total by that line's amount. */
  lemma TotalAfterRemove(order: seq<Line>, id: int, k: int)
    requires UniqueIds(order)
    requires 0 <= k < |order| && order[k].id == id
    ensures TotalAmount(RemoveFromOrder(order, id)) == TotalAmount(order) - LineAmount(order[k])
  {
    RemoveLine(order, id, k);
    assert order == order[..k] + [order[k]] + order[k + 1..];
    SumAppend(order[..k] + [order[k]], order[k + 1..]);
    SumAppend(order[..k], [order[k]]);
    SumAppend(order[..k], order[k + 1..]);
  }

  /** Decreasing the line with that id lowers the total by one unit price. */
  lemma TotalAfterDecrease(order: seq<Line>, id: int, k: int)
    requires Valid(order)
    requires 0 <= k < |order| && order[k].id == id
    ensures TotalAmount(DecreaseQuantity(order, id)) == TotalAmount(order) - order[k].price
  {
    DecreaseLine(order, id, k);
    if order[k].quantity == 1 {
      TotalAfterRemove(order, id, k);
      RemoveLine(order, id, k);
    } else {
      SumReplace(order, k, order[k].(quantity := order[k].quantity - 1));
      OneMoreAmount(order[k], -1);
    }
  }

  /** [Tacos 50 x 2, Enchiladas 60 x 1] totals 160. */
  lemma SampleTotal()
    ensures TotalAmount([Line(1, "Tacos", 50.0, 2), Line(2, "Enchiladas", 60.0, 1)]) == 160.0
  {
    var order := [Line(1, "Tacos", 50.0, 2), Line(2, "Enchiladas", 60.0, 1)];
    assert order[1..][1..] == [];
  }
}
