/**
 * The customer's order as src/App.jsx keeps it: a list of order lines, each a
 * menu item spread into a new object together with its quantity, and the five
 * updaters that `setOrder` applies to the previous list.
 */
module Cart {
  import opened Wrappers

  /** A menu entry as the menu hands it to `addToOrder`. */
  datatype MenuItem = MenuItem(id: int, name: string, price: real)

  /** One order line: the fields of the menu item plus its quantity. */
  datatype Line = Line(id: int, name: string, price: real, quantity: int)

  /** The sample menu of the application. */
  const MenuItems: seq<MenuItem> := [
    MenuItem(1, "Tacos", 50.0),
    MenuItem(2, "Enchiladas", 60.0),
    MenuItem(3, "Quesadillas", 45.0),
    MenuItem(4, "Pozole", 70.0)
  ]

  /** `{ ...item, quantity: 1 }` */
  function NewLine(item: MenuItem): Line {
    Line(item.id, item.name, item.price, 1)
  }

  /** Some line of the order has this id. */
  predicate HasLine(order: seq<Line>, id: int) {
    exists i :: 0 <= i < |order| && order[i].id == id
  }

  /** At most one line per item id. */
  predicate UniqueIds(order: seq<Line>) {
    forall i, j :: 0 <= i < j < |order| ==> order[i].id != order[j].id
  }

  /** No line is kept at zero or below. */
  predicate PositiveQuantities(order: seq<Line>) {
    forall i :: 0 <= i < |order| ==> order[i].quantity >= 1
  }

  /** The invariant every updater keeps. */
  predicate Valid(order: seq<Line>) {
    UniqueIds(order) && PositiveQuantities(order)
  }

  /** `Array.prototype.find` keyed by id: the first line with that id (see `FindFirst`). */
  function Find(order: seq<Line>, id: int): (r: Option<Line>)
    ensures r.Some? <==> HasLine(order, id)
    ensures r.Some? ==> r.value in order && r.value.id == id
  {
    if |order| == 0 then None
    else if order[0].id == id then Some(order[0])
    else
      assert forall i :: 0 < i < |order| ==> order[i] == order[1..][i - 1];
      Find(order[1..], id)
  }

  /** `find` yields the first line with the id, not just any such line. */
  lemma {:induction false} FindFirst(order: seq<Line>, id: int, k: int)
    requires 0 <= k < |order| && order[k].id == id
    requires forall j :: 0 <= j < k ==> order[j].id != id
    ensures Find(order, id) == Some(order[k])
  {
    if k > 0 {
      FindFirst(order[1..], id, k - 1);
    }
  }

  /** `Array.prototype.filter`: the elements that `keep` accepts, in their order. */
  function Filter<T>(s: seq<T>, keep: T -> bool): (r: seq<T>)
    ensures |r| <= |s|
    ensures forall x :: x in r ==> x in s && keep(x)
  {
    if |s| == 0 then []
    else if keep(s[0]) then [s[0]] + Filter(s[1..], keep)
    else Filter(s[1..], keep)
  }

  /** The mapping callback of the three quantity updaters. */
  function Adjust(l: Line, id: int, delta: int): Line {
    if l.id == id then l.(quantity := l.quantity + delta) else l
  }

  /** `prevOrder.map(...)` changing the quantity of the lines with that id by `delta`. */
  function AdjustQuantity(order: seq<Line>, id: int, delta: int): (r: seq<Line>)
    ensures |r| == |order|
    ensures forall i :: 0 <= i < |order| ==> r[i] == Adjust(order[i], id, delta)
  {
    seq(|order|, i requires 0 <= i < |order| => Adjust(order[i], id, delta))
  }

  /** The filter predicate of `decreaseQuantity`. */
  function IsPositive(l: Line): bool {
    l.quantity > 0
  }

  /** The filter predicate of `removeFromOrder`. */
  function OtherThan(id: int): Line -> bool {
    (l: Line) => l.id != id
  }

  /** `addToOrder`: merge into the line with the same id, or append a new line. */
  function AddToOrder(order: seq<Line>, item: MenuItem): (r: seq<Line>)
  {
    if Find(order, item.id).Some? then AdjustQuantity(order, item.id, 1)
    else order + [NewLine(item)]
  }

  /** `increaseQuantity`: add one to the line with that id, if any. */
  function IncreaseQuantity(order: seq<Line>, id: int): (r: seq<Line>)
    ensures |r| == |order|
    ensures forall i :: 0 <= i < |order| ==> r[i].id == order[i].id
  {
    AdjustQuantity(order, id, 1)
  }

  /** `decreaseQuantity`: subtract one from the line with that id, then drop every line at zero or below. */
  function DecreaseQuantity(order: seq<Line>, id: int): (r: seq<Line>)
    ensures |r| <= |order|
    ensures PositiveQuantities(r)
  {
    var r := Filter(AdjustQuantity(order, id, -1), IsPositive);
    assert forall i :: 0 <= i < |r| ==> r[i] in r;
    r
  }

  /** `removeFromOrder`: drop the lines with that id, whatever their quantity. */
  function RemoveFromOrder(order: seq<Line>, id: int): (r: seq<Line>)
    ensures !HasLine(r, id)
  {
    var r := Filter(order, OtherThan(id));
    assert forall i :: 0 <= i < |r| ==> r[i] in r;
    r
  }

  // ---------------------------------------------------------------------------
  // Facts about Filter

  lemma {:induction false} FilterAppend<T>(a: seq<T>, b: seq<T>, keep: T -> bool)
    ensures Filter(a + b, keep) == Filter(a, keep) + Filter(b, keep)
  {
    if |a| == 0 {
      assert a + b == b;
    } else {
      assert (a + b)[1..] == a[1..] + b;
      FilterAppend(a[1..], b, keep);
    }
  }

  lemma {:induction false} FilterKeepsAll<T>(s: seq<T>, keep: T -> bool)
    requires forall i :: 0 <= i < |s| ==> keep(s[i])
    ensures Filter(s, keep) == s
  {
    if |s| > 0 {
      FilterKeepsAll(s[1..], keep);
    }
  }

  /** Filtering a list whose other elements all pass keeps them and decides only about `x`. */
  lemma FilterAround<T>(before: seq<T>, x: T, after: seq<T>, keep: T -> bool)
    requires forall i :: 0 <= i < |before| ==> keep(before[i])
    requires forall i :: 0 <= i < |after| ==> keep(after[i])
    ensures Filter(before + [x] + after, keep) == before + (if keep(x) then [x] else []) + after
  {
    calc {
      Filter(before + [x] + after, keep);
      { FilterAppend(before + [x], after, keep); }
      Filter(before + [x], keep) + Filter(after, keep);
      { FilterAppend(before, [x], keep); }
      Filter(before, keep) + Filter([x], keep) + Filter(after, keep);
      { FilterKeepsAll(before, keep); FilterKeepsAll(after, keep); }
      before + Filter([x], keep) + after;
      { FilterSingle(x, keep); }
      before + (if keep(x) then [x] else []) + after;
    }
  }

  lemma FilterSingle<T>(x: T, keep: T -> bool)
    ensures Filter([x], keep) == if keep(x) then [x] else []
  {
    assert [x][1..] == [];
    assert Filter([x][1..], keep) == [];
  }

  lemma {:induction false} FilterPreservesUniqueIds(order: seq<Line>, keep: Line -> bool)
    requires UniqueIds(order)
    ensures UniqueIds(Filter(order, keep))
  {
    if |order| > 0 {
      var rest := order[1..];
      FilterPreservesUniqueIds(rest, keep);
      var f := Filter(rest, keep);
      if keep(order[0]) {
        forall j | 0 <= j < |f| ensures f[j].id != order[0].id {
          assert f[j] in f;
          var m :| 0 <= m < |rest| && rest[m] == f[j];
          assert order[m + 1] == f[j];
        }
        var r := [order[0]] + f;
        forall i, j | 0 <= i < j < |r| ensures r[i].id != r[j].id {
          if i > 0 {
            assert r[i] == f[i - 1] && r[j] == f[j - 1];
          }
        }
      }
    }
  }

  lemma FilterPreservesPositive(order: seq<Line>, keep: Line -> bool)
    requires PositiveQuantities(order)
    ensures PositiveQuantities(Filter(order, keep))
  {
    var r := Filter(order, keep);
    forall i | 0 <= i < |r| ensures r[i].quantity >= 1 {
      assert r[i] in r;
    }
  }

  // ---------------------------------------------------------------------------
  // What each updater does

  /** Adding an item whose id is absent appends one line with quantity 1 and changes nothing before it. */
  lemma AddAbsentAppends(order: seq<Line>, item: MenuItem)
    requires !HasLine(order, item.id)
    ensures AddToOrder(order, item) == order + [Line(item.id, item.name, item.price, 1)]
  {
  }

  /**
   * After an add the order always has a line for the item; it grows by one
   * line exactly when it had none.
   */
  lemma AddedItemHasLine(order: seq<Line>, item: MenuItem)
    ensures HasLine(AddToOrder(order, item), item.id)
    ensures HasLine(order, item.id) ==> |AddToOrder(order, item)| == |order|
    ensures !HasLine(order, item.id) ==> |AddToOrder(order, item)| == |order| + 1
  {
    var r := AddToOrder(order, item);
    if HasLine(order, item.id) {
      var k :| 0 <= k < |order| && order[k].id == item.id;
      assert r[k].id == item.id;
    } else {
      assert r[|order|].id == item.id;
    }
  }

  /** With unique ids, the quantity map touches exactly the line at `k`. */
  lemma AdjustOneLine(order: seq<Line>, id: int, delta: int, k: int)
    requires UniqueIds(order)
    requires 0 <= k < |order| && order[k].id == id
    ensures AdjustQuantity(order, id, delta) == order[k := order[k].(quantity := order[k].quantity + delta)]
  {
    var r := AdjustQuantity(order, id, delta);
    forall i | 0 <= i < |order| && i != k ensures r[i] == order[i] {
      assert order[i].id != order[k].id;
    }
  }

  /** Adding an item whose id is present raises only that line's quantity by one. */
  lemma AddPresentMerges(order: seq<Line>, item: MenuItem, k: int)
    requires UniqueIds(order)
    requires 0 <= k < |order| && order[k].id == item.id
    ensures AddToOrder(order, item) == order[k := order[k].(quantity := order[k].quantity + 1)]
  {
    assert HasLine(order, item.id);
    AdjustOneLine(order, item.id, 1, k);
  }

  /** `n` calls of `addToOrder` with the same item. */
  function AddRepeatedly(order: seq<Line>, item: MenuItem, n: nat): seq<Line> {
    if n == 0 then order else AddToOrder(AddRepeatedly(order, item, n - 1), item)
  }

  /** Adding the item again to an order that ends with its only line raises that line by one. */
  lemma AddToLastLine(order: seq<Line>, item: MenuItem, m: int)
    requires !HasLine(order, item.id)
    ensures AddToOrder(order + [Line(item.id, item.name, item.price, m)], item)
         == order + [Line(item.id, item.name, item.price, m + 1)]
  {
    var prev := order + [Line(item.id, item.name, item.price, m)];
    assert prev[|order|].id == item.id;
    var r := AdjustQuantity(prev, item.id, 1);
    assert forall i :: 0 <= i < |order| ==> r[i] == order[i];
  }

  /** Starting without the item, n adds leave exactly one line for it, at the end, with quantity n. */
  lemma {:induction false} RepeatedAddsMerge(order: seq<Line>, item: MenuItem, n: nat)
    requires !HasLine(order, item.id)
    requires n >= 1
    ensures AddRepeatedly(order, item, n) == order + [Line(item.id, item.name, item.price, n)]
  {
    if n == 1 {
      AddAbsentAppends(order, item);
    } else {
      var prev := AddRepeatedly(order, item, n - 1);
      assert AddRepeatedly(order, item, n) == AddToOrder(prev, item);
      RepeatedAddsMerge(order, item, n - 1);
      AddToLastLine(order, item, n - 1);
    }
  }

  /** Increasing an id that has no line leaves the order unchanged. */
  lemma IncreaseAbsentUnchanged(order: seq<Line>, id: int)
    requires !HasLine(order, id)
    ensures IncreaseQuantity(order, id) == order
  {
    var r := IncreaseQuantity(order, id);
    assert forall i :: 0 <= i < |order| ==> r[i] == order[i];
  }

  /** Increasing an id that has a line gives what adding that item would give. */
  lemma IncreasePresentIsAdd(order: seq<Line>, item: MenuItem)
    requires HasLine(order, item.id)
    ensures IncreaseQuantity(order, item.id) == AddToOrder(order, item)
  {
  }

  /**
   * Decreasing lowers the matching line by one and drops it when it reaches
   * zero; all other lines keep their values and their relative order.
   */
  lemma DecreaseLine(order: seq<Line>, id: int, k: int)
    requires Valid(order)
    requires 0 <= k < |order| && order[k].id == id
    ensures DecreaseQuantity(order, id) ==
      if order[k].quantity == 1 then order[..k] + order[k + 1..]
      else order[k := order[k].(quantity := order[k].quantity - 1)]
  {
    var lowered := order[k].(quantity := order[k].quantity - 1);
    DecreaseSplice(order, id, k);
    if order[k].quantity == 1 {
      assert !IsPositive(lowered);
    } else {
      SplitAround(order, k, lowered);
    }
  }

  /** The decrease splices the lowered line, if still positive, between the untouched halves. */
  lemma DecreaseSplice(order: seq<Line>, id: int, k: int)
    requires Valid(order)
    requires 0 <= k < |order| && order[k].id == id
    ensures var lowered := order[k].(quantity := order[k].quantity - 1);
      DecreaseQuantity(order, id) == order[..k] + (if IsPositive(lowered) then [lowered] else []) + order[k + 1..]
  {
    var lowered := order[k].(quantity := order[k].quantity - 1);
    var before, after := order[..k], order[k + 1..];
    AdjustOneLine(order, id, -1, k);
    SplitAround(order, k, lowered);
    assert AdjustQuantity(order, id, -1) == before + [lowered] + after;
    PositiveAround(order, k);
    FilterAround(before, lowered, after, IsPositive);
  }

  /** Replacing the element at `k` is splicing it between the two halves. */
  lemma SplitAround(order: seq<Line>, k: int, x: Line)
    requires 0 <= k < |order|
    ensures order[k := x] == order[..k] + [x] + order[k + 1..]
  {
  }

  /** Both halves around `k` of a list with positive quantities keep positive quantities. */
  lemma PositiveAround(order: seq<Line>, k: int)
    requires PositiveQuantities(order)
    requires 0 <= k < |order|
    ensures PositiveQuantities(order[..k]) && PositiveQuantities(order[k + 1..])
  {
    var after := order[k + 1..];
    forall i | 0 <= i < |after| ensures after[i].quantity >= 1 {
      assert after[i] == order[k + 1 + i];
    }
  }

  /** Decreasing an id that has no line leaves a well-formed order unchanged. */
  lemma DecreaseAbsentUnchanged(order: seq<Line>, id: int)
    requires PositiveQuantities(order)
    requires !HasLine(order, id)
    ensures DecreaseQuantity(order, id) == order
  {
    var a := AdjustQuantity(order, id, -1);
    assert forall i :: 0 <= i < |order| ==> a[i] == order[i];
    assert a == order;
    FilterKeepsAll(order, IsPositive);
  }

  /** Removing drops the line with that id whatever its quantity and keeps the rest in order. */
  lemma RemoveLine(order: seq<Line>, id: int, k: int)
    requires UniqueIds(order)
    requires 0 <= k < |order| && order[k].id == id
    ensures RemoveFromOrder(order, id) == order[..k] + order[k + 1..]
  {
    var keep := OtherThan(id);
    var before, after := order[..k], order[k + 1..];
    assert order == before + [order[k]] + after;
    forall i | 0 <= i < |before| ensures keep(before[i]) {
      assert before[i] == order[i];
    }
    forall i | 0 <= i < |after| ensures keep(after[i]) {
      assert after[i] == order[k + 1 + i];
    }
    FilterAround(before, order[k], after, keep);
  }

  /** Removing an id that has no line is a no-op. */
  lemma RemoveAbsentUnchanged(order: seq<Line>, id: int)
    requires !HasLine(order, id)
    ensures RemoveFromOrder(order, id) == order
  {
    assert forall i :: 0 <= i < |order| ==> OtherThan(id)(order[i]);
    FilterKeepsAll(order, OtherThan(id));
  }

  // ---------------------------------------------------------------------------
  // The invariant is kept

  lemma AddPreservesValid(order: seq<Line>, item: MenuItem)
    requires Valid(order)
    ensures Valid(AddToOrder(order, item))
  {
    if !HasLine(order, item.id) {
      var r := order + [NewLine(item)];
      forall i | 0 <= i < |order| ensures r[i].id != item.id {
      }
    } else {
      var k :| 0 <= k < |order| && order[k].id == item.id;
      AddPresentMerges(order, item, k);
    }
  }

  lemma IncreasePreservesValid(order: seq<Line>, id: int)
    requires Valid(order)
    ensures Valid(IncreaseQuantity(order, id))
  {
    var r := IncreaseQuantity(order, id);
    forall i, j | 0 <= i < j < |r| ensures r[i].id != r[j].id {
      assert r[i].id == order[i].id && r[j].id == order[j].id;
    }
  }

  lemma DecreasePreservesValid(order: seq<Line>, id: int)
    requires Valid(order)
    ensures Valid(DecreaseQuantity(order, id))
  {
    var a := AdjustQuantity(order, id, -1);
    forall i, j | 0 <= i < j < |a| ensures a[i].id != a[j].id {
      assert a[i].id == order[i].id && a[j].id == order[j].id;
    }
    FilterPreservesUniqueIds(a, IsPositive);
  }

  lemma RemovePreservesValid(order: seq<Line>, id: int)
    requires Valid(order)
    ensures Valid(RemoveFromOrder(order, id))
  {
    FilterPreservesUniqueIds(order, OtherThan(id));
    FilterPreservesPositive(order, OtherThan(id));
  }

  /** The sample menu: distinct ids and positive prices. */
  lemma MenuItemsWellFormed()
    ensures forall i, j :: 0 <= i < j < |MenuItems| ==> MenuItems[i].id != MenuItems[j].id
    ensures forall i :: 0 <= i < |MenuItems| ==> MenuItems[i].price > 0.0
  {
  }

  /** Add Tacos twice, then decrease Tacos once: a single Tacos line with quantity 1. */
  lemma TacosScenario()
    ensures DecreaseQuantity(AddRepeatedly([], MenuItems[0], 2), 1) == [Line(1, "Tacos", 50.0, 1)]
  {
    RepeatedAddsMerge([], MenuItems[0], 2);
    DecreaseLine([Line(1, "Tacos", 50.0, 2)], 1, 0);
  }
}
