/**
 * The guest's cart on the menu page: a list of (dish id, quantity) entries that
 * the - and + buttons edit, priced against the dish catalogue.
 */
module MenuCart {
  import opened Seqs

  datatype DishStatus = Available | Unavailable | Hidden

  /** A catalogue entry; prices are whole currency amounts. */
  datatype Dish = Dish(id: int, price: int, status: DishStatus)

  /** One cart entry, as sent in the guest's order request body. */
  datatype OrderItem = OrderItem(dishId: int, quantity: int)

  datatype Option<T> = None | Some(value: T)

  /** The cart's `findIndex` by dish id: the first index holding the dish, or -1. */
  function FindIndex(orders: seq<OrderItem>, dishId: int): (r: int)
    ensures -1 <= r < |orders|
    ensures r == -1 <==> forall i :: 0 <= i < |orders| ==> orders[i].dishId != dishId
    ensures 0 <= r ==> orders[r].dishId == dishId && forall i :: 0 <= i < r ==> orders[i].dishId != dishId
  {
    if orders == [] then -1
    else if orders[0].dishId == dishId then 0
    else
      var k := FindIndex(orders[1..], dishId);
      if k == -1 then -1 else k + 1
  }

  /** The cart's `find` by dish id: the first entry for the dish, if any. */
  function Find(orders: seq<OrderItem>, dishId: int): (r: Option<OrderItem>)
    ensures r.None? <==> forall i :: 0 <= i < |orders| ==> orders[i].dishId != dishId
    ensures r.Some? ==> r.value in orders && r.value.dishId == dishId
    ensures r.Some? ==> exists i :: 0 <= i < |orders| && orders[i] == r.value && forall j :: 0 <= j < i ==> orders[j].dishId != dishId
  {
    var i := FindIndex(orders, dishId);
    if i == -1 then None else Some(orders[i])
  }

  /** The quantity the page shows for a dish: that of its first entry, 0 when it has none. */
  function QuantityOf(orders: seq<OrderItem>, dishId: int): int {
    match Find(orders, dishId)
    case None => 0
    case Some(order) => order.quantity
  }

  /** The cart's `filter` that drops every entry for the dish. */
  function WithoutDish(orders: seq<OrderItem>, dishId: int): (r: seq<OrderItem>)
    ensures forall x :: x in r <==> x in orders && x.dishId != dishId
    ensures |r| <= |orders|
  {
    if orders == [] then []
    else if orders[0].dishId != dishId then [orders[0]] + WithoutDish(orders[1..], dishId)
    else WithoutDish(orders[1..], dishId)
  }

  /** Number of cart entries for a dish. */
  function CountDish(orders: seq<OrderItem>, dishId: int): nat {
    if orders == [] then 0
    else (if orders[0].dishId == dishId then 1 else 0) + CountDish(orders[1..], dishId)
  }

  /** The state updater of `handleQuantityChange(dishId, quantity)`: the cart it produces from the previous one. */
  function QuantityChanged(prev: seq<OrderItem>, dishId: int, quantity: int): seq<OrderItem> {
    if quantity == 0 then WithoutDish(prev, dishId)
    else
      var index := FindIndex(prev, dishId);
      if index == -1 then prev + [OrderItem(dishId, quantity)]
      else prev[index := prev[index].(quantity := quantity)]
  }

  /** The cart invariant: no dish twice, and every quantity positive. */
  ghost predicate CartValid(orders: seq<OrderItem>) {
    && DistinctDishes(orders)
    && (forall x :: x in orders ==> x.quantity > 0)
  }

  ghost predicate DistinctDishes(orders: seq<OrderItem>) {
    forall i, j :: 0 <= i < j < |orders| ==> orders[i].dishId != orders[j].dishId
  }

  // ---------------------------------------------------------------------------
  // Removal: quantity 0

  lemma {:induction false} WithoutDishIsOrderedFilter(orders: seq<OrderItem>, dishId: int)
    ensures IsSubsequence(WithoutDish(orders, dishId), orders)
    ensures |WithoutDish(orders, dishId)| == |orders| - CountDish(orders, dishId)
  {
    if orders != [] {
      WithoutDishIsOrderedFilter(orders[1..], dishId);
      var r := WithoutDish(orders, dishId);
      if orders[0].dishId != dishId {
        assert r[0] == orders[0] && r[1..] == WithoutDish(orders[1..], dishId);
      } else {
        SubsequenceOfTail(r, orders);
      }
    }
  }

  /** Removing a dish the cart does not hold leaves the cart as it is. */
  lemma {:induction false} WithoutAbsentDish(orders: seq<OrderItem>, dishId: int)
    requires forall i :: 0 <= i < |orders| ==> orders[i].dishId != dishId
    ensures WithoutDish(orders, dishId) == orders
  {
    if orders != [] {
      WithoutAbsentDish(orders[1..], dishId);
      assert orders == [orders[0]] + orders[1..];
    }
  }

  lemma SubsequenceOfTail<T>(a: seq<T>, b: seq<T>)
    requires b != [] && IsSubsequence(a, b[1..])
    ensures IsSubsequence(a, b)
  {
  }

  /** Quantity 0 removes every entry of the dish and keeps all the others, in their order. */
  lemma {:induction false} ZeroQuantityRemoves(prev: seq<OrderItem>, dishId: int)
    ensures var r := QuantityChanged(prev, dishId, 0);
      && (forall k :: 0 <= k < |r| ==> r[k].dishId != dishId)
      && (forall k :: 0 <= k < |prev| && prev[k].dishId != dishId ==> prev[k] in r)
      && IsSubsequence(r, prev)
      && |r| == |prev| - CountDish(prev, dishId)
  {
    WithoutDishIsOrderedFilter(prev, dishId);
  }

  // ---------------------------------------------------------------------------
  // Insertion and replacement: quantity other than 0

  /** A dish not yet in the cart is appended at the end. */
  lemma AbsentDishAppended(prev: seq<OrderItem>, dishId: int, quantity: int)
    requires quantity != 0
    requires forall i :: 0 <= i < |prev| ==> prev[i].dishId != dishId
    ensures QuantityChanged(prev, dishId, quantity) == prev + [OrderItem(dishId, quantity)]
  {
  }

  /** A dish already in the cart has only the quantity of its first entry replaced. */
  lemma PresentDishReplacedAtFirstIndex(prev: seq<OrderItem>, dishId: int, quantity: int, index: nat)
    requires quantity != 0
    requires index < |prev| && prev[index].dishId == dishId
    requires forall i :: 0 <= i < index ==> prev[i].dishId != dishId
    ensures var r := QuantityChanged(prev, dishId, quantity);
      && |r| == |prev|
      && r[index] == OrderItem(dishId, quantity)
      && (forall k :: 0 <= k < |r| && k != index ==> r[k] == prev[k])
  {
  }

  // ---------------------------------------------------------------------------
  // Reading a quantity back after a change

  lemma FindIndexIgnoresQuantities(a: seq<OrderItem>, b: seq<OrderItem>, dishId: int)
    requires |a| == |b|
    requires forall k :: 0 <= k < |a| ==> a[k].dishId == b[k].dishId
    ensures FindIndex(a, dishId) == FindIndex(b, dishId)
  {
  }

  lemma {:induction false} FindAfterRemoval(orders: seq<OrderItem>, removed: int, dishId: int)
    requires removed != dishId
    ensures Find(WithoutDish(orders, removed), dishId) == Find(orders, dishId)
  {
    if orders != [] {
      FindAfterRemoval(orders[1..], removed, dishId);
      var r := WithoutDish(orders, removed);
      if orders[0].dishId == dishId {
        assert r[0] == orders[0];
      } else if orders[0].dishId != removed {
        FindOfCons(orders[0], WithoutDish(orders[1..], removed), dishId);
        FindOfCons(orders[0], orders[1..], dishId);
        assert orders == [orders[0]] + orders[1..];
      } else {
        FindOfCons(orders[0], orders[1..], dishId);
        assert orders == [orders[0]] + orders[1..];
      }
    }
  }

  lemma FindOfCons(x: OrderItem, s: seq<OrderItem>, dishId: int)
    requires x.dishId != dishId
    ensures Find([x] + s, dishId) == Find(s, dishId)
  {
    assert ([x] + s)[1..] == s;
  }

  lemma FindAfterAppend(prev: seq<OrderItem>, x: OrderItem, dishId: int)
    requires forall i :: 0 <= i < |prev| ==> prev[i].dishId != x.dishId
    ensures Find(prev + [x], dishId) == if dishId == x.dishId then Some(x) else Find(prev, dishId)
  {
    var t := prev + [x];
    assert forall i :: 0 <= i < |prev| ==> t[i] == prev[i];
    assert t[|prev|] == x;
  }

  /** After `handleQuantityChange(d, q)` the page shows `q` for `d`. */
  lemma QuantityOfChangedDish(prev: seq<OrderItem>, dishId: int, quantity: int)
    ensures QuantityOf(QuantityChanged(prev, dishId, quantity), dishId) == quantity
  {
    var r := QuantityChanged(prev, dishId, quantity);
    if quantity != 0 {
      if FindIndex(prev, dishId) == -1 {
        FindAfterAppend(prev, OrderItem(dishId, quantity), dishId);
      } else {
        FindIndexIgnoresQuantities(r, prev, dishId);
      }
    }
  }

  /** A change to one dish leaves the quantity shown for every other dish as it was. */
  lemma QuantityOfOtherDish(prev: seq<OrderItem>, dishId: int, quantity: int, other: int)
    requires other != dishId
    ensures QuantityOf(QuantityChanged(prev, dishId, quantity), other) == QuantityOf(prev, other)
  {
    var r := QuantityChanged(prev, dishId, quantity);
    if quantity == 0 {
      FindAfterRemoval(prev, dishId, other);
    } else {
      var index := FindIndex(prev, dishId);
      if index == -1 {
        FindAfterAppend(prev, OrderItem(dishId, quantity), other);
      } else {
        FindIndexIgnoresQuantities(r, prev, other);
        var j := FindIndex(prev, other);
        if j != -1 { assert j != index; }
      }
    }
  }

  // ---------------------------------------------------------------------------
  // The cart invariant under button presses

  /** What the - and + buttons pass to `handleQuantityChange`. */
  datatype Press = Minus(dishId: int) | Plus(dishId: int)

  function PressedQuantity(orders: seq<OrderItem>, press: Press): int {
    match press
    case Minus(d) => if QuantityOf(orders, d) - 1 < 0 then 0 else QuantityOf(orders, d) - 1
    case Plus(d) => QuantityOf(orders, d) + 1
  }

  function ApplyPress(orders: seq<OrderItem>, press: Press): seq<OrderItem> {
    QuantityChanged(orders, press.dishId, PressedQuantity(orders, press))
  }

  /** The cart after a series of presses, in order. */
  function ApplyPresses(orders: seq<OrderItem>, presses: seq<Press>): seq<OrderItem>
    decreases |presses|
  {
    if presses == [] then orders
    else ApplyPresses(ApplyPress(orders, presses[0]), presses[1..])
  }

  lemma QuantityOfValidCart(orders: seq<OrderItem>, dishId: int)
    requires CartValid(orders)
    ensures QuantityOf(orders, dishId) >= 0
    ensures QuantityOf(orders, dishId) == 0 <==> forall i :: 0 <= i < |orders| ==> orders[i].dishId != dishId
  {
  }

  /** - clamps at 0, + adds one, and a dish not in the cart reads as 0. */
  lemma ButtonArithmetic(orders: seq<OrderItem>, dishId: int)
    requires CartValid(orders)
    ensures var current := QuantityOf(orders, dishId);
      && PressedQuantity(orders, Minus(dishId)) == (if current == 0 then 0 else current - 1)
      && PressedQuantity(orders, Plus(dishId)) == current + 1
      && ((forall i :: 0 <= i < |orders| ==> orders[i].dishId != dishId) ==>
            PressedQuantity(orders, Minus(dishId)) == 0 && PressedQuantity(orders, Plus(dishId)) == 1)
  {
    QuantityOfValidCart(orders, dishId);
  }

  lemma DistinctTail(orders: seq<OrderItem>)
    requires orders != [] && DistinctDishes(orders)
    ensures DistinctDishes(orders[1..])
    ensures forall x :: x in orders[1..] ==> x.dishId != orders[0].dishId
  {
    var tail := orders[1..];
    forall i, j | 0 <= i < j < |tail| ensures tail[i].dishId != tail[j].dishId {
      assert tail[i] == orders[i + 1] && tail[j] == orders[j + 1];
    }
    forall x | x in tail ensures x.dishId != orders[0].dishId {
      var m :| 0 <= m < |tail| && tail[m] == x;
      assert orders[m + 1] == x;
    }
  }

  lemma DistinctCons(x: OrderItem, rest: seq<OrderItem>)
    requires DistinctDishes(rest)
    requires forall y :: y in rest ==> y.dishId != x.dishId
    ensures DistinctDishes([x] + rest)
  {
    var r := [x] + rest;
    forall i, j | 0 <= i < j < |r| ensures r[i].dishId != r[j].dishId {
      assert r[j] == rest[j - 1];
      if i > 0 { assert r[i] == rest[i - 1]; }
    }
  }

  lemma {:induction false} WithoutDishKeepsDistinct(orders: seq<OrderItem>, dishId: int)
    requires DistinctDishes(orders)
    ensures DistinctDishes(WithoutDish(orders, dishId))
  {
    if orders != [] {
      DistinctTail(orders);
      WithoutDishKeepsDistinct(orders[1..], dishId);
      if orders[0].dishId != dishId {
        DistinctCons(orders[0], WithoutDish(orders[1..], dishId));
      }
    }
  }

  /** Any quantity the buttons can produce keeps the cart invariant. */
  lemma QuantityChangedKeepsValid(prev: seq<OrderItem>, dishId: int, quantity: int)
    requires CartValid(prev) && quantity >= 0
    ensures CartValid(QuantityChanged(prev, dishId, quantity))
  {
    if quantity == 0 {
      WithoutDishKeepsDistinct(prev, dishId);
    }
  }

  /** Starting from a valid cart (the empty one included), button presses never create a duplicate dish or a quantity of 0 or less. */
  lemma {:induction false} PressesKeepCartValid(orders: seq<OrderItem>, presses: seq<Press>)
    requires CartValid(orders)
    ensures CartValid(ApplyPresses(orders, presses))
    decreases |presses|
  {
    if presses != [] {
      var p := presses[0];
      QuantityOfValidCart(orders, p.dishId);
      QuantityChangedKeepsValid(orders, p.dishId, PressedQuantity(orders, p));
      PressesKeepCartValid(ApplyPress(orders, p), presses[1..]);
    }
  }

  // ---------------------------------------------------------------------------
  // Total price

  /**
   * The `totalPrice` fold: left to right over the catalogue, from 0, each dish adding
   * quantity times price of its first cart entry, and nothing when it has none.
   */
  function TotalPrice(dishes: seq<Dish>, orders: seq<OrderItem>): int
    decreases |dishes|
  {
    if dishes == [] then 0
    else
      var result := TotalPrice(dishes[..|dishes| - 1], orders);
      var dish := dishes[|dishes| - 1];
      match Find(orders, dish.id)
      case None => result
      case Some(order) => result + order.quantity * dish.price
  }

  /** The summed catalogue price of a dish id (one price when catalogue ids are distinct, 0 when the id is absent). */
  function CataloguePrice(dishes: seq<Dish>, dishId: int): int
    decreases |dishes|
  {
    if dishes == [] then 0
    else CataloguePrice(dishes[..|dishes| - 1], dishId) + (if dishes[|dishes| - 1].id == dishId then dishes[|dishes| - 1].price else 0)
  }

  lemma {:induction false} TotalPriceOfEmptyCart(dishes: seq<Dish>)
    ensures TotalPrice(dishes, []) == 0
    decreases |dishes|
  {
    if dishes != [] {
      TotalPriceOfEmptyCart(dishes[..|dishes| - 1]);
    }
  }

  lemma {:induction false} CataloguePriceAbsent(dishes: seq<Dish>, dishId: int)
    requires forall k :: 0 <= k < |dishes| ==> dishes[k].id != dishId
    ensures CataloguePrice(dishes, dishId) == 0
    decreases |dishes|
  {
    if dishes != [] {
      CataloguePriceAbsent(dishes[..|dishes| - 1], dishId);
    }
  }

  /** The arithmetic of one fold step when the last catalogue dish is the changed one. */
  lemma ShiftedStep(newInit: int, oldInit: int, quantity: int, current: int, priceBefore: int, price: int)
    requires newInit == oldInit + (quantity - current) * priceBefore
    ensures newInit + quantity * price == oldInit + current * price + (quantity - current) * (priceBefore + price)
  {
    assert (quantity - current) * (priceBefore + price) == (quantity - current) * priceBefore + quantity * price - current * price;
  }

  /** The fold's last step: the last catalogue dish adds its cart quantity (0 when absent) times its price. */
  lemma TotalPriceLastStep(dishes: seq<Dish>, orders: seq<OrderItem>)
    requires dishes != []
    ensures TotalPrice(dishes, orders)
         == TotalPrice(dishes[..|dishes| - 1], orders) + QuantityOf(orders, dishes[|dishes| - 1].id) * dishes[|dishes| - 1].price
  {
  }

  /** Changing one dish's quantity moves the total by the quantity difference times that dish's catalogue price. */
  lemma {:induction false} TotalPriceAfterChange(dishes: seq<Dish>, orders: seq<OrderItem>, dishId: int, quantity: int)
    ensures TotalPrice(dishes, QuantityChanged(orders, dishId, quantity))
         == TotalPrice(dishes, orders) + (quantity - QuantityOf(orders, dishId)) * CataloguePrice(dishes, dishId)
    decreases |dishes|
  {
    if dishes != [] {
      var init := dishes[..|dishes| - 1];
      var dish := dishes[|dishes| - 1];
      var r := QuantityChanged(orders, dishId, quantity);
      TotalPriceAfterChange(init, orders, dishId, quantity);
      TotalPriceLastStep(dishes, r);
      TotalPriceLastStep(dishes, orders);
      var current := QuantityOf(orders, dishId);
      var priceBefore := CataloguePrice(init, dishId);
      if dish.id == dishId {
        QuantityOfChangedDish(orders, dishId, quantity);
        assert CataloguePrice(dishes, dishId) == priceBefore + dish.price;
        ShiftedStep(TotalPrice(init, r), TotalPrice(init, orders), quantity, current, priceBefore, dish.price);
      } else {
        QuantityOfOtherDish(orders, dishId, quantity, dish.id);
        assert CataloguePrice(dishes, dishId) == priceBefore;
      }
    }
  }

  /** The + button raises the total by the dish's catalogue price. */
  lemma PlusRaisesTotal(dishes: seq<Dish>, orders: seq<OrderItem>, dishId: int)
    ensures TotalPrice(dishes, ApplyPress(orders, Plus(dishId))) == TotalPrice(dishes, orders) + CataloguePrice(dishes, dishId)
  {
    var current := QuantityOf(orders, dishId);
    assert ApplyPress(orders, Plus(dishId)) == QuantityChanged(orders, dishId, current + 1);
    TotalPriceAfterIncrement(dishes, orders, dishId, current + 1);
  }

  /** The - button on a dish with a positive quantity lowers the total by the dish's catalogue price. */
  lemma MinusLowersTotal(dishes: seq<Dish>, orders: seq<OrderItem>, dishId: int)
    requires QuantityOf(orders, dishId) > 0
    ensures TotalPrice(dishes, ApplyPress(orders, Minus(dishId))) == TotalPrice(dishes, orders) - CataloguePrice(dishes, dishId)
  {
    var current := QuantityOf(orders, dishId);
    assert ApplyPress(orders, Minus(dishId)) == QuantityChanged(orders, dishId, current - 1);
    TotalPriceAfterDecrement(dishes, orders, dishId, current - 1);
  }

  /** In a valid cart the - button on a dish shown as 0 changes neither the cart nor the total. */
  lemma MinusAtZeroKeepsCart(dishes: seq<Dish>, orders: seq<OrderItem>, dishId: int)
    requires CartValid(orders) && QuantityOf(orders, dishId) == 0
    ensures ApplyPress(orders, Minus(dishId)) == orders
    ensures TotalPrice(dishes, ApplyPress(orders, Minus(dishId))) == TotalPrice(dishes, orders)
  {
    QuantityOfValidCart(orders, dishId);
    assert ApplyPress(orders, Minus(dishId)) == WithoutDish(orders, dishId);
    WithoutAbsentDish(orders, dishId);
  }

  lemma TotalPriceAfterIncrement(dishes: seq<Dish>, orders: seq<OrderItem>, dishId: int, quantity: int)
    requires quantity == QuantityOf(orders, dishId) + 1
    ensures TotalPrice(dishes, QuantityChanged(orders, dishId, quantity)) == TotalPrice(dishes, orders) + CataloguePrice(dishes, dishId)
  {
    TotalPriceAfterChange(dishes, orders, dishId, quantity);
  }

  lemma TotalPriceAfterDecrement(dishes: seq<Dish>, orders: seq<OrderItem>, dishId: int, quantity: int)
    requires quantity == QuantityOf(orders, dishId) - 1
    ensures TotalPrice(dishes, QuantityChanged(orders, dishId, quantity)) == TotalPrice(dishes, orders) - CataloguePrice(dishes, dishId)
  {
    TotalPriceAfterChange(dishes, orders, dishId, quantity);
  }

  /** Cart entries for a dish that is not in the catalogue contribute nothing to the total. */
  lemma {:induction false} UncataloguedDishContributesNothing(dishes: seq<Dish>, orders: seq<OrderItem>, dishId: int)
    requires forall k :: 0 <= k < |dishes| ==> dishes[k].id != dishId
    ensures TotalPrice(dishes, WithoutDish(orders, dishId)) == TotalPrice(dishes, orders)
  {
    CataloguePriceAbsent(dishes, dishId);
    TotalPriceAfterChange(dishes, orders, dishId, 0);
  }
}
