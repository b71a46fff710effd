/** Orders and their status machine. */
module OrderDomain {
  import opened Wrappers
  import opened Money

  datatype Status =
    | Pending     // pending_restaurant_confirmation
    | Accepted
    | Rejected
    | Preparing
    | Ready
    | Completed
    | Cancelled
    | Unknown(text: string)  // Status is a Go string, so any other text is a value too

  datatype NewItem = NewItem(menuItemId: string, name: string, unitPrice: int64, quantity: int32, modifiers: seq<string>)

  datatype NewOrderInput = NewOrderInput(orderId: string, userId: string, restaurantId: string, items: seq<NewItem>)

  datatype OrderItem = OrderItem(
    menuItemId: string, name: string, unitPrice: int64, quantity: int32, modifiers: seq<string>, lineTotal: int64)

  datatype Order = Order(
    id: string, userId: string, restaurantId: string, status: Status, items: seq<OrderItem>, total: int64, version: nat)

  datatype OrderError = InvalidOrder | EmptyOrder | InvalidItem(index: nat)

  predicate ValidNewItem(item: NewItem) {
    item.menuItemId != "" && item.name != "" && item.quantity > 0 && item.unitPrice > 0
  }

  function PricedItem(item: NewItem): OrderItem {
    OrderItem(item.menuItemId, item.name, item.unitPrice, item.quantity, item.modifiers,
              LineTotal(item.unitPrice, item.quantity))
  }

  function PricedItems(items: seq<NewItem>): (priced: seq<OrderItem>)
    ensures |priced| == |items|
    ensures forall i :: 0 <= i < |items| ==> priced[i] == PricedItem(items[i])
  {
    seq(|items|, i requires 0 <= i < |items| => PricedItem(items[i]))
  }

  // What the items cost before any wrap-around.
  function ExactLines(items: seq<NewItem>): (lines: seq<int>)
    ensures |lines| == |items|
    ensures forall i :: 0 <= i < |items| ==> lines[i] == items[i].unitPrice * items[i].quantity
  {
    seq(|items|, i requires 0 <= i < |items| => items[i].unitPrice * items[i].quantity)
  }

  function LineTotals(items: seq<OrderItem>): (lines: seq<int>)
    ensures |lines| == |items|
    ensures forall i :: 0 <= i < |items| ==> lines[i] == items[i].lineTotal
  {
    seq(|items|, i requires 0 <= i < |items| => items[i].lineTotal)
  }

  lemma LineTotalsWrap(items: seq<NewItem>)
    ensures Wrap(Sum(LineTotals(PricedItems(items)))) == Wrap(Sum(ExactLines(items)))
  {
    var exact := ExactLines(items);
    assert LineTotals(PricedItems(items)) == seq(|exact|, i requires 0 <= i < |exact| => Wrap(exact[i]));
    SumWraps(exact);
  }

  // The first item NewOrder would refuse.
  function FirstInvalid(items: seq<NewItem>, from: nat): (r: Option<nat>)
    requires from <= |items|
    ensures r.None? ==> forall i :: from <= i < |items| ==> ValidNewItem(items[i])
    ensures r.Some? ==> from <= r.value < |items| && !ValidNewItem(items[r.value]) &&
                        forall i :: from <= i < r.value ==> ValidNewItem(items[i])
    decreases |items| - from
  {
    if from == |items| then None
    else if !ValidNewItem(items[from]) then Some(from)
    else FirstInvalid(items, from + 1)
  }

  // The order a valid input stands for: pending, version one, and the exact price modulo 2^64.
  function OrderFor(input: NewOrderInput): Result<Order, OrderError> {
    if input.orderId == "" || input.userId == "" || input.restaurantId == "" then Failure(InvalidOrder)
    else if input.items == [] then Failure(EmptyOrder)
    else match FirstInvalid(input.items, 0)
      case Some(i) => Failure(InvalidItem(i))
      case None => Success(Order(input.orderId, input.userId, input.restaurantId, Pending,
                                 PricedItems(input.items), Wrap(Sum(ExactLines(input.items))), 1))
  }

  // What NewOrder checks, and what it makes of a valid input, field by field.
  lemma OrderForFields(input: NewOrderInput)
    ensures OrderFor(input).Success? <==>
      input.orderId != "" && input.userId != "" && input.restaurantId != "" && input.items != [] &&
      forall i :: 0 <= i < |input.items| ==>
        input.items[i].menuItemId != "" && input.items[i].name != "" && input.items[i].quantity > 0 && input.items[i].unitPrice > 0
    ensures OrderFor(input).Success? ==>
      var o := OrderFor(input).value;
      o.id == input.orderId && o.userId == input.userId && o.restaurantId == input.restaurantId &&
      o.status == Pending && o.version == 1 && |o.items| == |input.items| &&
      o.total == Wrap(Sum(ExactLines(input.items))) &&
      forall i :: 0 <= i < |o.items| ==>
        var (line, item) := (o.items[i], input.items[i]);
        line.menuItemId == item.menuItemId && line.name == item.name && line.unitPrice == item.unitPrice &&
        line.quantity == item.quantity && line.modifiers == item.modifiers &&
        line.lineTotal == Wrap(item.unitPrice * item.quantity)
    ensures OrderFor(input).Failure? ==>
      match OrderFor(input).error
      case InvalidOrder => input.orderId == "" || input.userId == "" || input.restaurantId == ""
      case EmptyOrder => input.items == []
      case InvalidItem(k) =>
        k < |input.items| &&
        (input.items[k].menuItemId == "" || input.items[k].name == "" || input.items[k].quantity <= 0 || input.items[k].unitPrice <= 0) &&
        forall i :: 0 <= i < k ==>
          input.items[i].menuItemId != "" && input.items[i].name != "" && input.items[i].quantity > 0 && input.items[i].unitPrice > 0
  {
    if input.items != [] && FirstInvalid(input.items, 0).Some? {
      assert !ValidNewItem(input.items[FirstInvalid(input.items, 0).value]);
    }
  }

  method NewOrder(input: NewOrderInput) returns (r: Result<Order, OrderError>)
    ensures r == OrderFor(input)
  {
    if input.orderId == "" || input.userId == "" || input.restaurantId == "" {
      return Failure(InvalidOrder);
    }
    if |input.items| == 0 {
      return Failure(EmptyOrder);
    }
    ghost var priced := PricedItems(input.items);
    ghost var lines := LineTotals(priced);
    var items: seq<OrderItem> := [];
    var total: int64 := 0;
    for i := 0 to |input.items|
      invariant |items| == i && forall j :: 0 <= j < i ==> items[j] == priced[j]
      invariant total == Wrap(Sum(lines[..i]))
      invariant forall j :: 0 <= j < i ==> ValidNewItem(input.items[j])
    {
      var item := input.items[i];
      if item.menuItemId == "" || item.name == "" || item.quantity <= 0 || item.unitPrice <= 0 {
        return Failure(InvalidItem(i));
      }
      var lineTotal := LineTotal(item.unitPrice, item.quantity);
      items := items + [OrderItem(item.menuItemId, item.name, item.unitPrice, item.quantity, item.modifiers, lineTotal)];
      WrapStep(lines, i);
      total := Wrap(total + lineTotal);
    }
    LineTotalsWrap(input.items);
    assert lines[..|input.items|] == lines && items == priced;
    r := Success(Order(input.orderId, input.userId, input.restaurantId, Pending, items, total, 1));
  }

  // The statuses the table lists after each status.
  function Allowed(from: Status): seq<Status> {
    match from
    case Pending => [Accepted, Rejected, Cancelled]
    case Accepted => [Preparing, Cancelled]
    case Preparing => [Ready, Cancelled]
    case Ready => [Completed]
    case _ => []
  }

  predicate CanTransition(from: Status, to: Status) {
    to in Allowed(from)
  }

  datatype Transition = Unchanged | Changed | Refused

  function Moved(order: Order, next: Status): (Order, Transition) {
    if order.status == next then (order, Unchanged)
    else if !CanTransition(order.status, next) then (order, Refused)
    else (order.(status := next, version := order.version + 1), Changed)
  }

  // One request, field by field: the status table, the version, and nothing else.
  lemma MovedFields(order: Order, next: Status)
    ensures var (after, outcome) := Moved(order, next);
      (outcome == Unchanged <==> order.status == next) &&
      (outcome == Changed <==>
         (order.status == Pending && (next == Accepted || next == Rejected || next == Cancelled)) ||
         (order.status == Accepted && (next == Preparing || next == Cancelled)) ||
         (order.status == Preparing && (next == Ready || next == Cancelled)) ||
         (order.status == Ready && next == Completed)) &&
      (outcome == Changed ==> after.status == next && after.version == order.version + 1) &&
      (outcome != Changed ==> after == order) &&
      after.id == order.id && after.userId == order.userId && after.restaurantId == order.restaurantId &&
      after.items == order.items && after.total == order.total
  {
  }

  // An order held in a variable, as the stores hold it while they apply an event.
  class OrderVar {
    var order: Order

    constructor (order: Order)
      ensures this.order == order
    {
      this.order := order;
    }

    method TransitionTo(next: Status) returns (outcome: Transition)
      modifies this
      ensures (order, outcome) == Moved(old(order), next)
    {
      if order.status == next {
        return Unchanged;
      }
      var candidates := Allowed(order.status);
      var found := false;
      for i := 0 to |candidates|
        invariant found <==> next in candidates[..i]
      {
        if candidates[i] == next {
          found := true;
        }
      }
      if !found {
        return Refused;
      }
      order := order.(status := next);
      order := order.(version := order.version + 1);
      return Changed;
    }
  }

  // Any sequence of transition requests, refused ones included.
  function Run(order: Order, requests: seq<Status>): Order {
    if requests == [] then order
    else Moved(Run(order, requests[..|requests| - 1]), requests[|requests| - 1]).0
  }

  function Changes(order: Order, requests: seq<Status>): nat {
    if requests == [] then 0
    else
      var n := |requests| - 1;
      Changes(order, requests[..n]) +
      if Moved(Run(order, requests[..n]), requests[n]).1 == Changed then 1 else 0
  }

  // Every change walks strictly down this rank, so the table has no cycle.
  function Rank(status: Status): nat {
    match status
    case Pending => 4
    case Accepted => 3
    case Preparing => 2
    case Ready => 1
    case _ => 0
  }

  predicate Terminal(status: Status) { Rank(status) == 0 }

  /** Over any run, versions count changes, the rank pays for them, and nothing else moves. */
  lemma {:induction false} RunCountsChanges(order: Order, requests: seq<Status>)
    ensures var last := Run(order, requests);
      last.version == order.version + Changes(order, requests) &&
      Rank(last.status) + Changes(order, requests) <= Rank(order.status) &&
      last == order.(status := last.status, version := last.version)
  {
    if requests != [] {
      RunCountsChanges(order, requests[..|requests| - 1]);
    }
  }

  // Which (status, version) pairs an order that started pending at version one can show.
  predicate Visible(status: Status, version: nat) {
    match status
    case Pending => version == 1
    case Accepted => version == 2
    case Rejected => version == 2
    case Preparing => version == 3
    case Ready => version == 4
    case Completed => version == 5
    case Cancelled => 2 <= version <= 4
    case Unknown(_) => false
  }

  lemma {:induction false} RunStaysVisible(order: Order, requests: seq<Status>)
    requires order.status == Pending && order.version == 1
    ensures Visible(Run(order, requests).status, Run(order, requests).version)
  {
    if requests != [] {
      RunStaysVisible(order, requests[..|requests| - 1]);
    }
  }

  // The requests that lead a new order to a visible pair.
  function Route(status: Status, version: nat): seq<Status>
    requires Visible(status, version)
  {
    match status
    case Pending => []
    case Accepted => [Accepted]
    case Rejected => [Rejected]
    case Preparing => [Accepted, Preparing]
    case Ready => [Accepted, Preparing, Ready]
    case Completed => [Accepted, Preparing, Ready, Completed]
    case Cancelled =>
      if version == 2 then [Cancelled]
      else if version == 3 then [Accepted, Cancelled]
      else [Accepted, Preparing, Cancelled]
  }

  lemma {:induction false} RouteArrives(order: Order, status: Status, version: nat)
    requires order.status == Pending && order.version == 1 && Visible(status, version)
    ensures Run(order, Route(status, version)) == order.(status := status, version := version)
  {
    var r := Route(status, version);
    RunSteps(order, r);
    if |r| > 0 { RunSteps(order, r[..1]); }
    if |r| > 1 { RunSteps(order, r[..2]); assert r[..2][..1] == r[..1]; }
    if |r| > 2 { RunSteps(order, r[..3]); assert r[..3][..2] == r[..2]; }
  }

  lemma {:induction false} RunSteps(order: Order, requests: seq<Status>)
    ensures requests == [] ==> Run(order, requests) == order
    ensures requests != [] ==>
      Run(order, requests) == Moved(Run(order, requests[..|requests| - 1]), requests[|requests| - 1]).0
  {
  }

  /** Exactly the visible pairs are reached: the version never passes five, and no version is skipped. */
  lemma {:induction false} ReachableExactlyVisible(order: Order, status: Status, version: nat)
    requires order.status == Pending && order.version == 1
    ensures (exists requests :: Run(order, requests) == order.(status := status, version := version))
            <==> Visible(status, version)
  {
    if Visible(status, version) {
      RouteArrives(order, status, version);
    }
    forall requests | Run(order, requests) == order.(status := status, version := version)
      ensures Visible(status, version)
    {
      RunStaysVisible(order, requests);
    }
  }

  // A terminal order answers every request without moving.
  lemma {:induction false} TerminalAbsorbs(order: Order, requests: seq<Status>)
    requires Terminal(order.status)
    ensures Run(order, requests) == order
  {
    if requests != [] {
      TerminalAbsorbs(order, requests[..|requests| - 1]);
    }
  }
}
