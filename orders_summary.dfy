/**
 * The guest's order list and the two totals the orders page shows under it:
 * what is still to be paid (pending, processing or delivered orders) and what is paid.
 */
module OrdersSummary {

  datatype OrderStatus = Pending | Processing | Delivered | Paid | Rejected

  /** The dish as it was when the order was placed; prices are whole currency amounts. */
  datatype DishSnapshot = DishSnapshot(name: string, price: int)

  datatype Order = Order(id: int, dishSnapshot: DishSnapshot, quantity: int, status: OrderStatus)

  /** An amount and an item count. */
  datatype Bucket = Bucket(price: int, quantity: int)

  datatype Summary = Summary(waitingForPaying: Bucket, paid: Bucket)

  const Zero: Bucket := Bucket(0, 0)

  /** The reduce's initial value. */
  const Initial: Summary := Summary(Zero, Zero)

  /** The reducer: a pending, processing or delivered order adds to `waitingForPaying`, a paid one to `paid`, any other status to neither. */
  function Step(result: Summary, order: Order): Summary {
    if order.status == Delivered || order.status == Processing || order.status == Pending then
      result.(waitingForPaying := Bucket(
        result.waitingForPaying.price + order.dishSnapshot.price * order.quantity,
        result.waitingForPaying.quantity + order.quantity))
    else if order.status == Paid then
      result.(paid := Bucket(
        result.paid.price + order.dishSnapshot.price * order.quantity,
        result.paid.quantity + order.quantity))
    else
      result
  }

  /** The `reduce` over the order list with the reducer above, left to right. */
  function Fold(result: Summary, orders: seq<Order>): Summary
    decreases |orders|
  {
    if orders == [] then result else Fold(Step(result, orders[0]), orders[1..])
  }

  /** `{ waitingForPaying, paid }` of the orders page. */
  function Aggregate(orders: seq<Order>): Summary {
    Fold(Initial, orders)
  }

  // ---------------------------------------------------------------------------
  // A reference definition: classify every order, then sum each class

  datatype Class = Waiting | Settled | Excluded

  function ClassOf(status: OrderStatus): Class {
    match status
    case Pending => Waiting
    case Processing => Waiting
    case Delivered => Waiting
    case Paid => Settled
    case Rejected => Excluded
  }

  /** What one order adds to the bucket of its class. */
  function Contribution(order: Order): Bucket {
    Bucket(order.dishSnapshot.price * order.quantity, order.quantity)
  }

  function Plus(a: Bucket, b: Bucket): Bucket {
    Bucket(a.price + b.price, a.quantity + b.quantity)
  }

  function Combine(a: Summary, b: Summary): Summary {
    Summary(Plus(a.waitingForPaying, b.waitingForPaying), Plus(a.paid, b.paid))
  }

  /** The sum of the contributions of the orders of class `c`. */
  function SumOf(orders: seq<Order>, c: Class): Bucket
    decreases |orders|
  {
    if orders == [] then Zero
    else Plus(ContributionTo(orders[0], c), SumOf(orders[1..], c))
  }

  /** The sum of the contributions of all orders. */
  function SumAll(orders: seq<Order>): Bucket
    decreases |orders|
  {
    if orders == [] then Zero else Plus(Contribution(orders[0]), SumAll(orders[1..]))
  }

  // ---------------------------------------------------------------------------

  /** The per-order split of the reference definition: the contribution to class `c`. */
  function ContributionTo(order: Order, c: Class): Bucket {
    if ClassOf(order.status) == c then Contribution(order) else Zero
  }

  lemma StepAddsContribution(result: Summary, order: Order)
    ensures Step(result, order) == Combine(result, Summary(ContributionTo(order, Waiting), ContributionTo(order, Settled)))
  {
    match order.status
    case Pending =>
    case Processing =>
    case Delivered =>
    case Paid =>
    case Rejected =>
  }

  lemma SumOfFirst(orders: seq<Order>, c: Class)
    requires orders != []
    ensures SumOf(orders, c) == Plus(ContributionTo(orders[0], c), SumOf(orders[1..], c))
  {
  }

  lemma {:induction false} FoldAddsClassSums(result: Summary, orders: seq<Order>)
    ensures Fold(result, orders) == Combine(result, Summary(SumOf(orders, Waiting), SumOf(orders, Settled)))
    decreases |orders|
  {
    if orders != [] {
      var o, rest := orders[0], orders[1..];
      var here := Summary(ContributionTo(o, Waiting), ContributionTo(o, Settled));
      var there := Summary(SumOf(rest, Waiting), SumOf(rest, Settled));
      calc {
        Fold(result, orders);
        Fold(Step(result, o), rest);
        { StepAddsContribution(result, o); }
        Fold(Combine(result, here), rest);
        { FoldAddsClassSums(Combine(result, here), rest); }
        Combine(Combine(result, here), there);
        Combine(result, Combine(here, there));
        { SumOfFirst(orders, Waiting); SumOfFirst(orders, Settled); }
        Combine(result, Summary(SumOf(orders, Waiting), SumOf(orders, Settled)));
      }
    }
  }

  /** `waitingForPaying` sums the pending, processing and delivered orders; `paid` sums the paid ones. */
  lemma AggregateIsClassSums(orders: seq<Order>)
    ensures Aggregate(orders).waitingForPaying == SumOf(orders, Waiting)
    ensures Aggregate(orders).paid == SumOf(orders, Settled)
  {
    FoldAddsClassSums(Initial, orders);
  }

  /** No orders: both totals are 0 amount, 0 items. */
  lemma AggregateOfNoOrders()
    ensures Aggregate([]) == Summary(Bucket(0, 0), Bucket(0, 0))
  {
  }

  lemma {:induction false} SumOfConcat(xs: seq<Order>, ys: seq<Order>, c: Class)
    ensures SumOf(xs + ys, c) == Plus(SumOf(xs, c), SumOf(ys, c))
    decreases |xs|
  {
    if xs != [] {
      assert (xs + ys)[1..] == xs[1..] + ys;
      SumOfConcat(xs[1..], ys, c);
    } else {
      assert xs + ys == ys;
    }
  }

  /** The totals of two lists laid end to end are the component-wise sums of their totals. */
  lemma AggregateConcat(xs: seq<Order>, ys: seq<Order>)
    ensures Aggregate(xs + ys) == Combine(Aggregate(xs), Aggregate(ys))
  {
    AggregateIsClassSums(xs + ys);
    AggregateIsClassSums(xs);
    AggregateIsClassSums(ys);
    SumOfConcat(xs, ys, Waiting);
    SumOfConcat(xs, ys, Settled);
  }

  lemma MultisetOfRest(xs: seq<Order>, ys: seq<Order>, k: nat)
    requires multiset(xs) == multiset(ys) && xs != [] && k < |ys| && ys[k] == xs[0]
    ensures multiset(xs[1..]) == multiset(ys[..k] + ys[k + 1..])
  {
    var x := xs[0];
    assert ys == ys[..k] + [x] + ys[k + 1..];
    assert xs == [x] + xs[1..];
    assert multiset(ys) == multiset(ys[..k]) + multiset{x} + multiset(ys[k + 1..]);
    assert multiset(xs) == multiset{x} + multiset(xs[1..]);
    assert multiset(ys[..k] + ys[k + 1..]) == multiset(ys[..k]) + multiset(ys[k + 1..]);
    assert multiset(xs[1..]) == multiset(xs) - multiset{x};
  }

  lemma SumOfWithout(ys: seq<Order>, k: nat, c: Class)
    requires k < |ys|
    ensures SumOf(ys, c) == Plus(ContributionTo(ys[k], c), SumOf(ys[..k] + ys[k + 1..], c))
  {
    assert ys == ys[..k] + [ys[k]] + ys[k + 1..];
    SumOfConcat(ys[..k] + [ys[k]], ys[k + 1..], c);
    SumOfConcat(ys[..k], [ys[k]], c);
    SumOfConcat(ys[..k], ys[k + 1..], c);
  }

  lemma {:induction false} SumOfPermutation(xs: seq<Order>, ys: seq<Order>, c: Class)
    requires multiset(xs) == multiset(ys)
    ensures SumOf(xs, c) == SumOf(ys, c)
    decreases |xs|
  {
    if xs == [] {
      assert |ys| == |multiset(ys)| == 0;
    } else {
      assert xs[0] in multiset(ys);
      var k :| 0 <= k < |ys| && ys[k] == xs[0];
      MultisetOfRest(xs, ys, k);
      SumOfPermutation(xs[1..], ys[..k] + ys[k + 1..], c);
      SumOfWithout(ys, k, c);
    }
  }

  /** The totals depend only on which orders there are, not on their order. */
  lemma AggregatePermutation(xs: seq<Order>, ys: seq<Order>)
    requires multiset(xs) == multiset(ys)
    ensures Aggregate(xs) == Aggregate(ys)
  {
    AggregateIsClassSums(xs);
    AggregateIsClassSums(ys);
    SumOfPermutation(xs, ys, Waiting);
    SumOfPermutation(xs, ys, Settled);
  }

  lemma {:induction false} ClassSumsPartition(orders: seq<Order>)
    ensures Plus(Plus(SumOf(orders, Waiting), SumOf(orders, Settled)), SumOf(orders, Excluded)) == SumAll(orders)
    decreases |orders|
  {
    if orders != [] {
      ClassSumsPartition(orders[1..]);
    }
  }

  lemma {:induction false} ExcludedQuantityZero(orders: seq<Order>)
    requires forall o :: o in orders ==> o.quantity > 0
    ensures SumOf(orders, Excluded).quantity >= 0
    ensures SumOf(orders, Excluded).quantity == 0 <==> forall o :: o in orders ==> o.status != Rejected
    decreases |orders|
  {
    if orders != [] {
      var rest := orders[1..];
      assert orders == [orders[0]] + rest;
      ExcludedQuantityZero(rest);
      SumOfFirst(orders, Excluded);
    }
  }

  /**
   * Every order's quantity lands in exactly one of the two totals or is dropped (rejected);
   * with positive quantities the two totals together count at most all items, and exactly
   * all of them when no order is rejected.
   */
  lemma QuantityAccounting(orders: seq<Order>)
    ensures Aggregate(orders).waitingForPaying.quantity + Aggregate(orders).paid.quantity
          + SumOf(orders, Excluded).quantity == SumAll(orders).quantity
    ensures (forall o :: o in orders ==> o.quantity > 0) ==>
      && Aggregate(orders).waitingForPaying.quantity + Aggregate(orders).paid.quantity <= SumAll(orders).quantity
      && (Aggregate(orders).waitingForPaying.quantity + Aggregate(orders).paid.quantity == SumAll(orders).quantity
          <==> forall o :: o in orders ==> o.status != Rejected)
  {
    AggregateIsClassSums(orders);
    ClassSumsPartition(orders);
    if forall o :: o in orders ==> o.quantity > 0 {
      ExcludedQuantityZero(orders);
    }
  }
}
