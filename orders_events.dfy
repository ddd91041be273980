/**
 * The orders page's live updates: the effect that registers four socket handlers and the
 * cleanup that removes them, the socket's handler registry, and what each handler does
 * (a toast and a refetch of the order list, or a log line).
 */
module OrdersEvents {
  import opened OrdersSummary

  /** The four socket events the page listens to. */
  datatype EventName = Connect | Disconnect | UpdateOrder | Payment

  /**
   * A delivered event with its payload: nothing for connect, the reason string for disconnect,
   * the updated order, or the batch of paid orders.
   */
  datatype Event =
    | ConnectEvent
    | DisconnectEvent(reason: string)
    | UpdateOrderEvent(order: Order)
    | PaymentEvent(batch: seq<Order>)

  function NameOf(e: Event): EventName {
    match e
    case ConnectEvent => Connect
    case DisconnectEvent(_) => Disconnect
    case UpdateOrderEvent(_) => UpdateOrder
    case PaymentEvent(_) => Payment
  }

  /**
   * A handler closure: which of onConnect, onDisconnect, onUpdateOrder and onPayment it is,
   * and which run of the effect created it. Closures of different runs are different functions.
   */
  datatype Handler = Handler(kind: EventName, run: nat)

  /** One registration in the socket: `socket.on(event, handler)`. */
  datatype Listener = Listener(event: EventName, handler: Handler)

  // ---------------------------------------------------------------------------
  // The registry

  /** `socket.on(event, handler)`: the handler is added after those already registered. */
  function On(registry: seq<Listener>, event: EventName, handler: Handler): seq<Listener> {
    registry + [Listener(event, handler)]
  }

  /** `socket.off(event, handler)`: that registration is removed and every other one kept, in order. */
  function Off(registry: seq<Listener>, event: EventName, handler: Handler): (r: seq<Listener>)
    ensures forall l :: l in r <==> l in registry && l != Listener(event, handler)
  {
    if registry == [] then []
    else if registry[0] == Listener(event, handler) then Off(registry[1..], event, handler)
    else [registry[0]] + Off(registry[1..], event, handler)
  }

  /** The registrations made by run `run` of the effect, in the order of the four `socket.on` calls. */
  function Subscribe(registry: seq<Listener>, run: nat): seq<Listener> {
    var r := On(registry, UpdateOrder, Handler(UpdateOrder, run));
    var r := On(r, Payment, Handler(Payment, run));
    var r := On(r, Connect, Handler(Connect, run));
    On(r, Disconnect, Handler(Disconnect, run))
  }

  /** The effect's cleanup for run `run`: the four `socket.off` calls. */
  function Unsubscribe(registry: seq<Listener>, run: nat): seq<Listener> {
    var r := Off(registry, Connect, Handler(Connect, run));
    var r := Off(r, Disconnect, Handler(Disconnect, run));
    var r := Off(r, UpdateOrder, Handler(UpdateOrder, run));
    Off(r, Payment, Handler(Payment, run))
  }

  /** How many handlers a delivery of `event` calls. */
  function ListenerCount(registry: seq<Listener>, event: EventName): nat {
    if registry == [] then 0
    else (if registry[0].event == event then 1 else 0) + ListenerCount(registry[1..], event)
  }

  /** Every handler is registered under the event it was written for. */
  ghost predicate WellTyped(registry: seq<Listener>) {
    forall l :: l in registry ==> l.handler.kind == l.event
  }

  /** No handler of run `run` is registered. */
  ghost predicate NoneFromRun(registry: seq<Listener>, run: nat) {
    forall l :: l in registry ==> l.handler.run != run
  }

  // ---------------------------------------------------------------------------
  // Handlers and delivery

  /** Side effects, counted: toasts shown, `refetch()` calls, console lines. */
  datatype Effects = Effects(toasts: nat, refetches: nat, logs: nat)

  const NoEffects: Effects := Effects(0, 0, 0)

  /** A handler or a delivery either runs to its end or throws, after the effects it had already caused. */
  datatype Outcome = Completed(effects: Effects) | Threw(effects: Effects)

  function PlusEffects(a: Effects, b: Effects): Effects {
    Effects(a.toasts + b.toasts, a.refetches + b.refetches, a.logs + b.logs)
  }

  /**
   * The body of the handler `kind` called with the payload of `e`. onConnect and onDisconnect
   * ignore their argument and log. onUpdateOrder destructures `dishSnapshot` out of its argument,
   * then toasts and refetches; any payload other than an order throws before the toast. onPayment
   * destructures `guest` out of `data[0]`: that element is an order for a non-empty batch and a
   * one-character string for a non-empty disconnect reason, and either way the handler toasts and
   * refetches; for anything else `data[0]` is missing and the destructuring throws.
   */
  function Invoke(kind: EventName, e: Event): Outcome {
    match kind
    case Connect => Completed(Effects(0, 0, 1))
    case Disconnect => Completed(Effects(0, 0, 1))
    case UpdateOrder => if e.UpdateOrderEvent? then Completed(Effects(1, 1, 0)) else Threw(NoEffects)
    case Payment => if HasFirstElement(e) then Completed(Effects(1, 1, 0)) else Threw(NoEffects)
  }

  /** The payload has an element at index 0: a non-empty batch or a non-empty reason string. */
  predicate HasFirstElement(e: Event) {
    (e.PaymentEvent? && |e.batch| > 0) || (e.DisconnectEvent? && |e.reason| > 0)
  }

  /**
   * The socket delivering `e`: every handler registered under its name is called with its
   * payload, in registration order; a handler that throws ends the delivery.
   */
  function Emit(registry: seq<Listener>, e: Event): Outcome {
    if registry == [] then Completed(NoEffects)
    else if registry[0].event != NameOf(e) then Emit(registry[1..], e)
    else Then(Invoke(registry[0].handler.kind, e), Emit(registry[1..], e))
  }

  /** One handler's outcome followed by the rest of the delivery, which is reached only when the handler completes. */
  function Then(first: Outcome, rest: Outcome): Outcome {
    match first
    case Threw(fx) => Threw(fx)
    case Completed(fx) =>
      match rest
      case Completed(more) => Completed(PlusEffects(fx, more))
      case Threw(more) => Threw(PlusEffects(fx, more))
  }

  // ---------------------------------------------------------------------------
  // What one delivery does

  /**
   * A delivery of `e` to `n` handlers, each written for the event: update-order and a non-empty
   * payment give one toast and one refetch per handler; connect and disconnect only log, once per
   * handler; an empty payment batch throws in the first handler, with no toast and no refetch.
   */
  function DeliveryOutcome(e: Event, n: nat): Outcome {
    match e
    case UpdateOrderEvent(_) => Completed(Effects(n, n, 0))
    case PaymentEvent(batch) => if |batch| == 0 && n > 0 then Threw(NoEffects) else Completed(Effects(n, n, 0))
    case ConnectEvent => Completed(Effects(0, 0, n))
    case DisconnectEvent(_) => Completed(Effects(0, 0, n))
  }

  /** When every handler is registered under its own event, delivering `e` comes to `DeliveryOutcome` for the number of its listeners. */
  lemma {:induction false} DeliveryEffects(registry: seq<Listener>, e: Event)
    requires WellTyped(registry)
    ensures Emit(registry, e) == DeliveryOutcome(e, ListenerCount(registry, NameOf(e)))
  {
    if registry != [] {
      var head, tail := registry[0], registry[1..];
      assert head in registry;
      assert WellTyped(tail) by {
        forall l | l in tail ensures l.handler.kind == l.event {
          assert l in registry;
        }
      }
      DeliveryEffects(tail, e);
      if head.event == NameOf(e) {
        DeliveryOutcomeStep(e, ListenerCount(tail, NameOf(e)));
      }
    }
  }

  /** One more handler written for the event adds its own outcome in front of the others'. */
  lemma DeliveryOutcomeStep(e: Event, m: nat)
    ensures Then(Invoke(NameOf(e), e), DeliveryOutcome(e, m)) == DeliveryOutcome(e, m + 1)
  {
  }

  /**
   * `onUpdateOrder` or `onPayment` registered under another event's name: it throws on that event's
   * payload before any toast and ends the delivery, except `onPayment` on a non-empty disconnect
   * reason, whose first character destructures without error, so it toasts and refetches.
   */
  lemma MistypedDelivery(registry: seq<Listener>, kind: EventName, run: nat, e: Event)
    requires kind != NameOf(e) && (kind == UpdateOrder || kind == Payment)
    ensures var outcome := Emit([Listener(NameOf(e), Handler(kind, run))] + registry, e);
      && (!(kind == Payment && e.DisconnectEvent? && |e.reason| > 0) ==> outcome == Threw(NoEffects))
      && (kind == Payment && e.DisconnectEvent? && |e.reason| > 0 ==>
            outcome.effects.toasts >= 1 && outcome.effects.refetches >= 1)
  {
    assert ([Listener(NameOf(e), Handler(kind, run))] + registry)[1..] == registry;
  }

  // ---------------------------------------------------------------------------
  // Registration discipline

  lemma {:induction false} ListenerCountConcat(a: seq<Listener>, b: seq<Listener>, event: EventName)
    ensures ListenerCount(a + b, event) == ListenerCount(a, event) + ListenerCount(b, event)
  {
    if a == [] {
      assert a + b == b;
    } else {
      assert (a + b)[1..] == a[1..] + b;
      ListenerCountConcat(a[1..], b, event);
    }
  }

  lemma CountSingleton(l: Listener, event: EventName)
    ensures ListenerCount([l], event) == if l.event == event then 1 else 0
  {
    assert [l][1..] == [];
  }

  lemma OffSingleton(l: Listener, event: EventName, handler: Handler)
    ensures Off([l], event, handler) == if l == Listener(event, handler) then [] else [l]
  {
    assert [l][1..] == [];
  }

  /** One run of the effect registers exactly one handler for each of the four events. */
  lemma SubscribeAddsOneEach(registry: seq<Listener>, run: nat, event: EventName)
    ensures ListenerCount(Subscribe(registry, run), event) == ListenerCount(registry, event) + 1
    ensures WellTyped(registry) ==> WellTyped(Subscribe(registry, run))
  {
    var added := [Listener(UpdateOrder, Handler(UpdateOrder, run)), Listener(Payment, Handler(Payment, run)),
                  Listener(Connect, Handler(Connect, run)), Listener(Disconnect, Handler(Disconnect, run))];
    var u, p, c, d := added[0], added[1], added[2], added[3];
    assert Subscribe(registry, run) == registry + [u] + [p] + [c] + [d];
    ListenerCountConcat(registry + [u] + [p] + [c], [d], event);
    ListenerCountConcat(registry + [u] + [p], [c], event);
    ListenerCountConcat(registry + [u], [p], event);
    ListenerCountConcat(registry, [u], event);
    CountSingleton(u, event);
    CountSingleton(p, event);
    CountSingleton(c, event);
    CountSingleton(d, event);
  }

  lemma {:induction false} OffConcat(a: seq<Listener>, b: seq<Listener>, event: EventName, handler: Handler)
    ensures Off(a + b, event, handler) == Off(a, event, handler) + Off(b, event, handler)
  {
    if a == [] {
      assert a + b == b;
    } else {
      assert (a + b)[1..] == a[1..] + b;
      OffConcat(a[1..], b, event, handler);
    }
  }

  lemma {:induction false} OffAbsent(registry: seq<Listener>, event: EventName, handler: Handler)
    requires Listener(event, handler) !in registry
    ensures Off(registry, event, handler) == registry
  {
    if registry != [] {
      assert registry == [registry[0]] + registry[1..];
      OffAbsent(registry[1..], event, handler);
    }
  }

  /** `off` of a registration absent from the front of the registry only works on the rest. */
  lemma OffAfter(front: seq<Listener>, rest: seq<Listener>, event: EventName, handler: Handler)
    requires Listener(event, handler) !in front
    ensures Off(front + rest, event, handler) == front + Off(rest, event, handler)
  {
    OffConcat(front, rest, event, handler);
    OffAbsent(front, event, handler);
  }

  /** The registrations of one run, in the order `Subscribe` makes them. */
  function RunListeners(run: nat): seq<Listener> {
    [Listener(UpdateOrder, Handler(UpdateOrder, run)), Listener(Payment, Handler(Payment, run)),
     Listener(Connect, Handler(Connect, run)), Listener(Disconnect, Handler(Disconnect, run))]
  }

  lemma OffConnectOfRun(run: nat)
    ensures Off(RunListeners(run), Connect, Handler(Connect, run)) == [RunListeners(run)[0], RunListeners(run)[1], RunListeners(run)[3]]
  {
    var added := RunListeners(run);
    var u, p, c, d := added[0], added[1], added[2], added[3];
    var h := Handler(Connect, run);
    assert added == [u, p] + [c, d] && [c, d] == [c] + [d];
    OffAfter([u, p], [c, d], Connect, h);
    OffConcat([c], [d], Connect, h);
    OffSingleton(c, Connect, h);
    OffSingleton(d, Connect, h);
    assert [u, p] + ([] + [d]) == [added[0], added[1], added[3]];
  }

  lemma OffDisconnectOfRun(run: nat)
    ensures var added := RunListeners(run);
      Off([added[0], added[1], added[3]], Disconnect, Handler(Disconnect, run)) == [added[0], added[1]]
  {
    var added := RunListeners(run);
    var u, p, d := added[0], added[1], added[3];
    var h := Handler(Disconnect, run);
    assert [u, p, d] == [u, p] + [d] && [u, p] == [u] + [p];
    OffConcat([u, p], [d], Disconnect, h);
    OffConcat([u], [p], Disconnect, h);
    OffSingleton(u, Disconnect, h);
    OffSingleton(p, Disconnect, h);
    OffSingleton(d, Disconnect, h);
  }

  lemma OffUpdateOrderOfRun(run: nat)
    ensures var added := RunListeners(run);
      Off([added[0], added[1]], UpdateOrder, Handler(UpdateOrder, run)) == [added[1]]
  {
    var added := RunListeners(run);
    var u, p := added[0], added[1];
    var h := Handler(UpdateOrder, run);
    assert [u, p] == [u] + [p];
    OffConcat([u], [p], UpdateOrder, h);
    OffSingleton(u, UpdateOrder, h);
    OffSingleton(p, UpdateOrder, h);
  }

  /**
   * Run `run` adds handlers numbered `run` only: if every handler so far is from an earlier run,
   * afterwards every handler is from run `run` or earlier, each still under its own event.
   */
  lemma SubscribeKeepsRunsBelow(registry: seq<Listener>, run: nat)
    requires WellTyped(registry) && forall l :: l in registry ==> l.handler.run < run
    ensures NoneFromRun(registry, run)
    ensures WellTyped(Subscribe(registry, run))
    ensures forall l :: l in Subscribe(registry, run) ==> l.handler.run < run + 1
  {
    SubscribeAppendsRun(registry, run);
    SubscribeAddsOneEach(registry, run, UpdateOrder);
  }

  /** One run of the effect appends that run's four registrations, nothing else. */
  lemma SubscribeAppendsRun(registry: seq<Listener>, run: nat)
    ensures Subscribe(registry, run) == registry + RunListeners(run)
  {
  }

  /** The cleanup of a run removes exactly what that run registered: the registry is as before the run. */
  lemma CleanupUndoesSubscribe(registry: seq<Listener>, run: nat)
    requires NoneFromRun(registry, run)
    ensures Unsubscribe(Subscribe(registry, run), run) == registry
  {
    var added := RunListeners(run);
    var u, p, d := added[0], added[1], added[3];
    assert Subscribe(registry, run) == registry + added;
    OffAfter(registry, added, Connect, Handler(Connect, run));
    OffConnectOfRun(run);
    OffAfter(registry, [u, p, d], Disconnect, Handler(Disconnect, run));
    OffDisconnectOfRun(run);
    OffAfter(registry, [u, p], UpdateOrder, Handler(UpdateOrder, run));
    OffUpdateOrderOfRun(run);
    OffAfter(registry, [p], Payment, Handler(Payment, run));
    OffSingleton(p, Payment, Handler(Payment, run));
    assert registry + [] == registry;
  }

  /**
   * Mount, cleanup, mount: the registry holds one handler per event, those of the second run,
   * so one update-order event toasts once and refetches once.
   */
  lemma RemountLeavesOneHandlerEach(registry: seq<Listener>, first: nat, second: nat, order: Order)
    requires NoneFromRun(registry, first)
    ensures var r := Subscribe(Unsubscribe(Subscribe(registry, first), first), second);
      && r == Subscribe(registry, second)
      && (forall event :: ListenerCount(r, event) == ListenerCount(registry, event) + 1)
      && (registry == [] ==> Emit(r, UpdateOrderEvent(order)) == Completed(Effects(1, 1, 0)))
  {
    CleanupUndoesSubscribe(registry, first);
    var r := Subscribe(registry, second);
    forall event ensures ListenerCount(r, event) == ListenerCount(registry, event) + 1 {
      SubscribeAddsOneEach(registry, second, event);
    }
    if registry == [] {
      SubscribeAddsOneEach(registry, second, UpdateOrder);
      DeliveryEffects(r, UpdateOrderEvent(order));
    }
  }

  /** Without the cleanup, a second mount leaves two handlers per event and every update is handled twice. */
  lemma MissingCleanupDoubles(first: nat, second: nat, order: Order)
    ensures var r := Subscribe(Subscribe([], first), second);
      Emit(r, UpdateOrderEvent(order)) == Completed(Effects(2, 2, 0))
  {
    var r := Subscribe(Subscribe([], first), second);
    assert WellTyped([]);
    SubscribeAddsOneEach([], first, UpdateOrder);
    SubscribeAddsOneEach(Subscribe([], first), second, UpdateOrder);
    DeliveryEffects(r, UpdateOrderEvent(order));
  }

  // ---------------------------------------------------------------------------
  // The component and its socket

  class OrdersCartView {
    /** The socket's handler registry. */
    var listeners: seq<Listener>
    /** `socket.connected` when the effect runs. */
    const connected: bool
    /** How many times the effect has run; numbers the handler closures. */
    var runs: nat
    var toasts: nat
    var refetches: nat
    var logs: nat
    /** The fetched order list; the totals are a function of it. */
    var orders: seq<Order>
    /** The registry as it was before the latest run added its handlers. */
    ghost var base: seq<Listener>

    ghost predicate Valid()
      reads this`listeners, this`runs
    {
      && WellTyped(listeners)
      && forall l :: l in listeners ==> l.handler.run < runs
    }

    /** The latest run of the effect is live: its four handlers sit on top of `base`, which holds none of its own. */
    ghost predicate Live()
      reads this`listeners, this`runs, this`base
    {
      runs > 0 && listeners == Subscribe(base, runs - 1) && NoneFromRun(base, runs - 1)
    }

    /** `{ waitingForPaying, paid }` as shown: the pending, processing and delivered orders' sum, and the paid orders' sum. */
    function Totals(): (r: Summary)
      reads this`orders
      ensures r.waitingForPaying == SumOf(orders, Waiting) && r.paid == SumOf(orders, Settled)
    {
      AggregateIsClassSums(orders);
      Aggregate(orders)
    }

    constructor (connected: bool)
      ensures Valid()
      ensures this.connected == connected && listeners == [] && runs == 0 && orders == []
      ensures toasts == 0 && refetches == 0 && logs == 0
    {
      this.connected := connected;
      listeners := [];
      runs := 0;
      toasts, refetches, logs := 0, 0, 0;
      orders := [];
    }

    /** The effect body: log once if the socket is already connected, then register the four handlers of this run. */
    method RunEffect() returns (run: nat)
      requires Valid()
      modifies this
      ensures Valid()
      ensures run == old(runs) && runs == old(runs) + 1
      ensures listeners == Subscribe(old(listeners), run)
      ensures Live() && base == old(listeners)
      ensures logs == old(logs) + (if connected then 1 else 0)
      ensures toasts == old(toasts) && refetches == old(refetches) && orders == old(orders)
    {
      run := runs;
      SubscribeKeepsRunsBelow(listeners, run);
      base := listeners;
      if connected {
        logs := logs + 1;
      }
      listeners := On(listeners, UpdateOrder, Handler(UpdateOrder, run));
      listeners := On(listeners, Payment, Handler(Payment, run));
      listeners := On(listeners, Connect, Handler(Connect, run));
      listeners := On(listeners, Disconnect, Handler(Disconnect, run));
      runs := runs + 1;
    }

    /** The cleanup the effect returned for run `run`. */
    method Cleanup(run: nat)
      requires Valid()
      modifies this
      ensures Valid()
      ensures listeners == Unsubscribe(old(listeners), run) && base == old(base)
      ensures runs == old(runs) && toasts == old(toasts) && refetches == old(refetches)
      ensures logs == old(logs) && orders == old(orders)
    {
      listeners := Off(listeners, Connect, Handler(Connect, run));
      listeners := Off(listeners, Disconnect, Handler(Disconnect, run));
      listeners := Off(listeners, UpdateOrder, Handler(UpdateOrder, run));
      listeners := Off(listeners, Payment, Handler(Payment, run));
    }

    /**
     * One more mount, its cleanup and a second mount, on top of whatever is already registered.
     * The registry ends as one run of the effect on it would leave it, with one more handler per
     * event, those of the second run.
     */
    method Remount() returns (first: nat, second: nat)
      requires Valid()
      modifies this
      ensures Valid()
      ensures first == old(runs) && second == old(runs) + 1 && runs == old(runs) + 2
      ensures listeners == Subscribe(old(listeners), second)
      ensures forall event :: ListenerCount(listeners, event) == ListenerCount(old(listeners), event) + 1
      ensures logs == old(logs) + (if connected then 2 else 0)
      ensures Live() && base == old(listeners)
      ensures toasts == old(toasts) && refetches == old(refetches) && orders == old(orders)
    {
      first := RunEffect();
      second := Rerun();
    }

    /**
     * The effect re-running when a dependency changes: the cleanup of the live run, then a new run.
     * The registry is the one the live run was added to, plus the new run's four handlers, so
     * however often the effect re-runs, each event keeps exactly one handler from it.
     */
    method Rerun() returns (run: nat)
      requires Valid() && Live()
      modifies this
      ensures Valid() && Live() && base == old(base)
      ensures run == old(runs) && runs == old(runs) + 1
      ensures listeners == Subscribe(base, run)
      ensures forall event :: ListenerCount(listeners, event) == ListenerCount(base, event) + 1
      ensures logs == old(logs) + (if connected then 1 else 0)
      ensures toasts == old(toasts) && refetches == old(refetches) && orders == old(orders)
    {
      ghost var before := base;
      var live := runs - 1;
      Cleanup(live);
      CleanupUndoesSubscribe(before, live);
      run := RunEffect();
      forall event ensures ListenerCount(listeners, event) == ListenerCount(before, event) + 1 {
        SubscribeAddsOneEach(before, run, event);
      }
    }

    /** The socket delivers one event; the handlers never touch the order list itself. */
    method Deliver(e: Event) returns (threw: bool)
      requires Valid()
      modifies this
      ensures Valid()
      ensures listeners == old(listeners) && runs == old(runs) && orders == old(orders)
      ensures base == old(base)
      ensures var outcome := DeliveryOutcome(e, ListenerCount(listeners, NameOf(e)));
        && threw == outcome.Threw?
        && toasts == old(toasts) + outcome.effects.toasts
        && refetches == old(refetches) + outcome.effects.refetches
        && logs == old(logs) + outcome.effects.logs
    {
      var outcome := Emit(listeners, e);
      DeliveryEffects(listeners, e);
      threw := outcome.Threw?;
      var fx := outcome.effects;
      toasts, refetches, logs := toasts + fx.toasts, refetches + fx.refetches, logs + fx.logs;
    }

    /** A fetch of the order list resolves; only the list, and with it the totals, change. */
    method ReceiveOrders(data: seq<Order>)
      requires Valid()
      modifies this
      ensures Valid()
      ensures orders == data && Totals() == Aggregate(data)
      ensures listeners == old(listeners) && runs == old(runs) && base == old(base)
      ensures toasts == old(toasts) && refetches == old(refetches) && logs == old(logs)
    {
      orders := data;
    }
  }

  /** Mount, cleanup, mount, then one update-order event: one toast and one refetch. */
  method RemountScenario(connected: bool, order: Order) returns (toasts: nat, refetches: nat)
    ensures toasts == 1 && refetches == 1
  {
    var view := new OrdersCartView(connected);
    var first, second := view.Remount();
    var threw := view.Deliver(UpdateOrderEvent(order));
    toasts, refetches := view.toasts, view.refetches;
  }

  /** A fresh view, mounted, whose effect then re-ran `n` times: one `update-order` handler, no toast or refetch yet. */
  method MountAndRerun(connected: bool, n: nat) returns (view: OrdersCartView)
    ensures fresh(view) && view.Valid() && view.Live() && view.base == []
    ensures ListenerCount(view.listeners, UpdateOrder) == 1
    ensures view.toasts == 0 && view.refetches == 0
  {
    view := new OrdersCartView(connected);
    var run := view.RunEffect();
    SubscribeAddsOneEach([], run, UpdateOrder);
    var i := 0;
    while i < n
      invariant view.Valid() && view.Live() && view.base == []
      invariant ListenerCount(view.listeners, UpdateOrder) == 1
      invariant view.toasts == 0 && view.refetches == 0
    {
      run := view.Rerun();
      i := i + 1;
    }
  }

  /**
   * Mount, then the effect re-running `n` times on dependency changes, then one update-order event:
   * one toast and one refetch, however large `n` is.
   */
  method RerunScenario(connected: bool, n: nat, order: Order) returns (toasts: nat, refetches: nat)
    ensures toasts == 1 && refetches == 1
  {
    var view := MountAndRerun(connected, n);
    var threw := view.Deliver(UpdateOrderEvent(order));
    toasts, refetches := view.toasts, view.refetches;
  }
}
