/**
 * The menu page component's own state: the cart being assembled and the current page.
 * Its handlers replace that state one step at a time.
 */
module MenuOrder {
  import opened Seqs
  import opened MenuCart
  import opened MenuPages

  class MenuOrderView {
    /** The dish catalogue as fetched; the handlers here never change it. */
    const dishes: seq<Dish>
    /** The `orders` state: the cart. */
    var orders: seq<OrderItem>
    /** The `currentPage` state. */
    var currentPage: int

    ghost predicate Valid()
      reads this`orders
    {
      CartValid(orders)
    }

    constructor (dishes: seq<Dish>)
      ensures this.dishes == dishes && orders == [] && currentPage == 1
      ensures Valid()
      ensures TotalPrice() == 0
    {
      this.dishes := dishes;
      orders := [];
      currentPage := 1;
    }

    /** The price on the order button; an empty cart costs nothing, whatever the catalogue. */
    function TotalPrice(): (r: int)
      reads this`orders
      ensures orders == [] ==> r == 0
    {
      TotalPriceOfEmptyCart(dishes);
      MenuCart.TotalPrice(dishes, orders)
    }

    /**
     * The dish cards of the current page: at most a page of dishes, none of them hidden,
     * every visible dish of the page's slice, in the slice's order.
     */
    function Displayed(): (r: seq<Dish>)
      reads this`currentPage
      ensures |Paginated(dishes, currentPage)| <= ItemsPerPage
      ensures forall k :: 0 <= k < |r| ==> r[k].status != Hidden
      ensures forall x :: x in Paginated(dishes, currentPage) && x.status != Hidden ==> x in r
      ensures IsSubsequence(r, Paginated(dishes, currentPage))
    {
      DisplayedDishesOfPage(dishes, currentPage);
      PageContents(dishes, currentPage);
      DisplayedDishes(dishes, currentPage)
    }

    /**
     * `handleQuantityChange`: quantity 0 drops the dish, an absent dish is appended,
     * and a present dish gets the new quantity at its first entry, in a copy of the list.
     */
    method HandleQuantityChange(dishId: int, quantity: int)
      modifies this
      ensures orders == QuantityChanged(old(orders), dishId, quantity)
      ensures QuantityOf(orders, dishId) == quantity
      ensures quantity == 0 ==> forall k :: 0 <= k < |orders| ==> orders[k].dishId != dishId
      ensures quantity != 0 && (forall k :: 0 <= k < |old(orders)| ==> old(orders)[k].dishId != dishId) ==>
        orders == old(orders) + [OrderItem(dishId, quantity)]
      ensures quantity != 0 && FindIndex(old(orders), dishId) != -1 ==>
        |orders| == |old(orders)| &&
        orders[FindIndex(old(orders), dishId)] == OrderItem(dishId, quantity) &&
        forall k :: 0 <= k < |orders| && k != FindIndex(old(orders), dishId) ==> orders[k] == old(orders)[k]
      ensures TotalPrice() == old(TotalPrice()) + (quantity - QuantityOf(old(orders), dishId)) * CataloguePrice(dishes, dishId)
      ensures currentPage == old(currentPage) && Displayed() == old(Displayed())
    {
      QuantityOfChangedDish(orders, dishId, quantity);
      TotalPriceAfterChange(dishes, orders, dishId, quantity);
      if quantity == 0 {
        orders := WithoutDish(orders, dishId);
        return;
      }
      var index := FindIndex(orders, dishId);
      if index == -1 {
        orders := orders + [OrderItem(dishId, quantity)];
        return;
      }
      var prev := orders;
      var newOrders := new OrderItem[|prev|](k requires 0 <= k < |prev| => prev[k]);
      newOrders[index] := newOrders[index].(quantity := quantity);
      orders := newOrders[..];
      assert orders == prev[index := prev[index].(quantity := quantity)];
    }

    /** The - button of a dish card: one less than the shown quantity, never below 0. */
    method PressMinus(dishId: int)
      modifies this
      ensures orders == QuantityChanged(old(orders), dishId, PressedQuantity(old(orders), Minus(dishId)))
      ensures old(Valid()) ==> Valid()
      ensures old(Valid()) ==>
        QuantityOf(orders, dishId) == if QuantityOf(old(orders), dishId) == 0 then 0 else QuantityOf(old(orders), dishId) - 1
      ensures old(Valid()) ==>
        TotalPrice() == old(TotalPrice()) - (if QuantityOf(old(orders), dishId) == 0 then 0 else CataloguePrice(dishes, dishId))
      ensures currentPage == old(currentPage)
    {
      var current := QuantityOf(orders, dishId);
      if Valid() {
        ButtonArithmetic(orders, dishId);
        QuantityChangedKeepsValid(orders, dishId, PressedQuantity(orders, Minus(dishId)));
        if current == 0 {
          MinusAtZeroKeepsCart(dishes, orders, dishId);
        } else {
          MinusLowersTotal(dishes, orders, dishId);
        }
      }
      HandleQuantityChange(dishId, if current - 1 < 0 then 0 else current - 1);
    }

    /** The + button of a dish card: one more than the shown quantity. */
    method PressPlus(dishId: int)
      modifies this
      ensures orders == QuantityChanged(old(orders), dishId, PressedQuantity(old(orders), Plus(dishId)))
      ensures old(Valid()) ==> Valid()
      ensures QuantityOf(orders, dishId) == QuantityOf(old(orders), dishId) + 1
      ensures TotalPrice() == old(TotalPrice()) + CataloguePrice(dishes, dishId)
      ensures currentPage == old(currentPage)
    {
      var current := QuantityOf(orders, dishId);
      if Valid() {
        ButtonArithmetic(orders, dishId);
        QuantityChangedKeepsValid(orders, dishId, PressedQuantity(orders, Plus(dishId)));
      }
      PlusRaisesTotal(dishes, orders, dishId);
      HandleQuantityChange(dishId, current + 1);
    }

    /** `handlePageChange`: only the current page changes, and with it the dish cards shown; the cart and its price stay. */
    method HandlePageChange(page: int)
      modifies this
      ensures currentPage == page
      ensures Displayed() == DisplayedDishes(dishes, page)
      ensures orders == old(orders) && TotalPrice() == old(TotalPrice())
    {
      currentPage := page;
    }
  }
}
