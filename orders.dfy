/** Orders (orders.js): validation, token numbers, placing single and
    whole-cart orders into a list bounded at 1000, lookup by token and bulk
    status updates. The clock and the random source are parameters. */
module Orders {
  import opened Wrappers
  import opened Text
  import opened Sequences
  import Cart

  const MAX_ORDERS: int := 1000
  const TOKEN_PREFIX: string := "T"

  datatype Status = Pending | Preparing | Ready | Completed | Cancelled

  /** An order record; `timestamp` is the placing time in milliseconds. */
  datatype Order = Order(token: string, item: string, price: int, quantity: int, status: Status, timestamp: int)

  datatype OrderError =
    | InvalidItemName | InvalidItemPrice | InvalidQuantity  // `validateOrder`
    | EmptyCart                                             // "Your cart is empty"
    | InvalidStatus | OrderNotFound                         // `updateOrderStatus`

  // ---------------------------------------------------------------------
  // Statuses

  function StatusName(s: Status): string
  {
    match s
    case Pending => "pending"
    case Preparing => "preparing"
    case Ready => "ready"
    case Completed => "completed"
    case Cancelled => "cancelled"
  }

  /** The five-name membership test of `updateOrderStatus`. */
  function ParseStatus(name: string): (r: Option<Status>)
    ensures r.Some? ==> StatusName(r.value) == name
    ensures r.None? ==> forall s: Status :: StatusName(s) != name
  {
    if name == "pending" then Some(Pending)
    else if name == "preparing" then Some(Preparing)
    else if name == "ready" then Some(Ready)
    else if name == "completed" then Some(Completed)
    else if name == "cancelled" then Some(Cancelled)
    else None
  }

  /** Every status name is recognised as its own status. */
  lemma StatusNameRoundTrip(s: Status)
    ensures ParseStatus(StatusName(s)) == Some(s)
  {
  }

  // ---------------------------------------------------------------------
  // Validation and tokens

  /** `validateOrder`: name, then price, then quantity. */
  function ValidateOrder(item: string, price: int, quantity: int): (r: Option<OrderError>)
    ensures r.None? <==> item != [] && price > 0 && 1 <= quantity <= 99
    ensures r.Some? ==> r.value in {InvalidItemName, InvalidItemPrice, InvalidQuantity}
  {
    if item == [] then Some(InvalidItemName)
    else if price <= 0 then Some(InvalidItemPrice)
    else if quantity <= 0 || quantity > 99 then Some(InvalidQuantity)
    else None
  }

  /** `generateTokenNumber`: "T", the last four digits of the clock in
      milliseconds, and the random draw in [0, 999] padded to three digits. */
  function GenerateToken(now: nat, random: nat): string
    requires random < 1000
  {
    TOKEN_PREFIX + LastChars(NatToString(now), 4) + PadStart(NatToString(random), 3, '0')
  }

  /** Once the clock has four digits, a token is "T" followed by seven
      digits: the first four read back as the clock modulo 10000 and the
      last three as the random draw. */
  lemma TokenDecodes(now: nat, random: nat)
    requires now >= 1000 && random < 1000
    ensures |GenerateToken(now, random)| == 8
    ensures GenerateToken(now, random)[0] == 'T'
    ensures AllDigits(GenerateToken(now, random)[1..])
    ensures DigitsValue(GenerateToken(now, random)[1..5]) == now % 10000
    ensures DigitsValue(GenerateToken(now, random)[5..]) == random
  {
    var clock := NatToString(now);
    var draw := NatToString(random);
    NatToStringLength(now, 3);
    NatToStringLength(random, 3);
    assert Pow10(3) == 1000 && Pow10(4) == 10000;
    LastDigitsValue(now, 4);
    PadZeroValue(draw, 3);
    NatToStringRoundTrip(random);
    var tok := GenerateToken(now, random);
    assert tok[1..5] == LastChars(clock, 4);
    assert tok[5..] == PadStart(draw, 3, '0');
  }

  // ---------------------------------------------------------------------
  // The list after placing orders

  /** `orders.slice(-n)` for n >= 1: the newest n orders, or all of them. */
  function KeepLast(orders: seq<Order>, n: nat): (r: seq<Order>)
    ensures |r| == if |orders| < n then |orders| else n
    ensures r == orders[|orders| - |r|..]
    ensures |orders| <= n ==> r == orders
  {
    if |orders| > n then orders[|orders| - n..] else orders
  }

  /** The list after `placeOrder` pushes `order`: at 1000 or more only the
      newest 999 are kept first. */
  function AppendBounded(orders: seq<Order>, order: Order): seq<Order>
  {
    (if |orders| >= MAX_ORDERS then KeepLast(orders, MAX_ORDERS - 1) else orders) + [order]
  }

  /** A single order placed through `placeOrder` lands last, the list never
      exceeds 1000, and what precedes it is the newest of the old orders. */
  lemma AppendBoundedShape(orders: seq<Order>, order: Order)
    ensures var r := AppendBounded(orders, order);
      && |r| <= MAX_ORDERS
      && r[|r| - 1] == order
      && r[..|r| - 1] == orders[|orders| - (|r| - 1)..]
      && (|orders| < MAX_ORDERS ==> r == orders + [order])
      && (|orders| >= MAX_ORDERS ==> |r| == MAX_ORDERS)
  {
  }

  /** The order `placeCartOrder` creates for one cart line. */
  function OrderFor(line: Cart.CartLine, token: string, now: int): Order
  {
    Order(token, line.name, line.price, line.quantity, Pending, now)
  }

  /** The orders one checkout pushes, one per cart line, in cart order. */
  function Batch(lines: seq<Cart.CartLine>, token: string, now: int): (r: seq<Order>)
    ensures |r| == |lines|
    ensures forall i :: 0 <= i < |lines| ==> r[i] == OrderFor(lines[i], token, now)
  {
    if lines == [] then []
    else Batch(lines[..|lines| - 1], token, now) + [OrderFor(lines[|lines| - 1], token, now)]
  }

  /** The first cart line `validateOrder` rejects, if any. */
  function FirstInvalid(lines: seq<Cart.CartLine>): (r: Option<nat>)
    ensures r.Some? ==>
      && r.value < |lines|
      && ValidateOrder(lines[r.value].name, lines[r.value].price, lines[r.value].quantity).Some?
      && forall j :: 0 <= j < r.value ==> ValidateOrder(lines[j].name, lines[j].price, lines[j].quantity).None?
    ensures r.None? <==> forall j :: 0 <= j < |lines| ==> ValidateOrder(lines[j].name, lines[j].price, lines[j].quantity).None?
  {
    if lines == [] then None
    else if ValidateOrder(lines[0].name, lines[0].price, lines[0].quantity).Some? then Some(0)
    else match FirstInvalid(lines[1..])
      case None => None
      case Some(i) => Some(i + 1)
  }

  /** A line that fails after only valid lines is the first invalid one. */
  lemma FirstInvalidAt(lines: seq<Cart.CartLine>, i: nat)
    requires i < |lines|
    requires forall j :: 0 <= j < i ==> ValidateOrder(lines[j].name, lines[j].price, lines[j].quantity).None?
    requires ValidateOrder(lines[i].name, lines[i].price, lines[i].quantity).Some?
    ensures FirstInvalid(lines) == Some(i)
  {
    var r := FirstInvalid(lines);
    assert r.Some?;
    assert !(r.value < i);
    assert !(r.value > i);
  }

  /** Every order of one checkout shares its token and timestamp, starts
      pending, and copies its cart line. */
  lemma BatchShared(lines: seq<Cart.CartLine>, token: string, now: int)
    ensures forall o :: o in Batch(lines, token, now) ==> o.token == token && o.timestamp == now && o.status == Pending
  {
  }

  /** After a successful checkout the list holds all orders if there are
      fewer than 1000 and exactly 1000 otherwise, and a checkout of at most
      1000 lines survives whole at its end. */
  lemma CheckoutBound(orders: seq<Order>, lines: seq<Cart.CartLine>, token: string, now: int)
    ensures |KeepLast(orders + Batch(lines, token, now), MAX_ORDERS)|
      == if |orders| + |lines| < MAX_ORDERS then |orders| + |lines| else MAX_ORDERS
    ensures |lines| <= MAX_ORDERS ==>
      var r := KeepLast(orders + Batch(lines, token, now), MAX_ORDERS);
      r[|r| - |lines|..] == Batch(lines, token, now)
  {
    var all := orders + Batch(lines, token, now);
    var r := KeepLast(all, MAX_ORDERS);
    if |lines| <= MAX_ORDERS {
      assert all[|all| - |lines|..] == Batch(lines, token, now);
      assert r[|r| - |lines|..] == all[|all| - |lines|..];
    }
  }

  /** A checkout that fails on its second line, pushed onto a full list,
      leaves 1001 orders: the partial batch is neither rolled back nor trimmed. */
  lemma FailedCheckoutExceedsBound(orders: seq<Order>, lines: seq<Cart.CartLine>, token: string, now: int)
    requires |orders| == MAX_ORDERS
    requires FirstInvalid(lines) == Some(1)
    ensures |orders + Batch(lines[..1], token, now)| == MAX_ORDERS + 1
  {
  }

  // ---------------------------------------------------------------------
  // Lookup and status updates

  /** Orders carrying `token`, in list order (`orders.filter`). */
  function FilterToken(orders: seq<Order>, token: string): (r: seq<Order>)
    ensures IsSubsequence(r, orders)
    ensures forall o :: o in r ==> o.token == token
    ensures forall i :: 0 <= i < |orders| && orders[i].token == token ==> orders[i] in r
  {
    if orders == [] then []
    else if orders[0].token == token then [orders[0]] + FilterToken(orders[1..], token)
    else FilterToken(orders[1..], token)
  }

  /** The lookup holds each order under the token as often as the list
      does, and no other order: equal orders are all kept. */
  lemma {:induction false} FilterTokenCount(orders: seq<Order>, token: string, o: Order)
    ensures multiset(FilterToken(orders, token))[o] == if o.token == token then multiset(orders)[o] else 0
  {
    if orders != [] {
      FilterTokenCount(orders[1..], token, o);
      assert orders == [orders[0]] + orders[1..];
    }
  }

  /** `getOrderByToken`: nothing for an empty token, else the matching orders. */
  function OrdersWithToken(orders: seq<Order>, token: string): (r: seq<Order>)
    ensures token == [] ==> r == []
    ensures token != [] ==> r == FilterToken(orders, token)
  {
    if token == [] then [] else FilterToken(orders, token)
  }

  /** An empty token or one no order carries finds nothing; otherwise
      something is found. */
  lemma {:induction false} LookupEmpty(orders: seq<Order>, token: string)
    ensures OrdersWithToken(orders, token) == [] <==>
      token == [] || forall i :: 0 <= i < |orders| ==> orders[i].token != token
  {
    if token != [] && OrdersWithToken(orders, token) != [] {
      var r := FilterToken(orders, token);
      SubsequenceMembers(r, orders);
      assert r[0] in orders;
    }
  }

  /** The list after every order under `token` is set to `status`. */
  function SetStatus(orders: seq<Order>, token: string, status: Status): (r: seq<Order>)
  {
    seq(|orders|, i requires 0 <= i < |orders| =>
      if orders[i].token == token then orders[i].(status := status) else orders[i])
  }

  /** A bulk status update leaves every other token's lookup untouched. */
  lemma {:induction false} SetStatusOtherTokens(orders: seq<Order>, token: string, status: Status, other: string)
    requires other != token
    ensures FilterToken(SetStatus(orders, token, status), other) == FilterToken(orders, other)
  {
    if orders != [] {
      assert SetStatus(orders, token, status)[1..] == SetStatus(orders[1..], token, status);
      SetStatusOtherTokens(orders[1..], token, status, other);
    }
  }

  /** After a bulk status update every order under the token has the new
      status, with no transition rule: any status may replace any other. */
  lemma {:induction false} SetStatusAll(orders: seq<Order>, token: string, status: Status)
    ensures FilterToken(SetStatus(orders, token, status), token) ==
      seq(|FilterToken(orders, token)|, i requires 0 <= i < |FilterToken(orders, token)| =>
        FilterToken(orders, token)[i].(status := status))
  {
    if orders != [] {
      var updated := SetStatus(orders, token, status);
      assert updated[0] == if orders[0].token == token then orders[0].(status := status) else orders[0];
      assert updated[1..] == SetStatus(orders[1..], token, status);
      SetStatusAll(orders[1..], token, status);
      var f, g := FilterToken(orders, token), FilterToken(orders[1..], token);
      if orders[0].token == token {
        assert f == [orders[0]] + g;
        assert FilterToken(updated, token) == [updated[0]] + FilterToken(updated[1..], token);
      } else {
        assert f == g;
        assert FilterToken(updated, token) == FilterToken(updated[1..], token);
      }
    }
  }

  // ---------------------------------------------------------------------
  // The order manager: the page-global `orders` array and its operations.
  // Saving to storage and the success/error toasts are left out.

  class OrderManager {
    var orders: seq<Order>

    constructor ()
      ensures orders == []
    {
      orders := [];
    }

    /** `placeOrder`: validate, make room, push one pending order. */
    method PlaceOrder(item: string, price: int, quantity: int, now: nat, random: nat) returns (r: Option<Order>)
      requires random < 1000
      modifies this
      ensures ValidateOrder(item, price, quantity).Some? ==> r.None? && orders == old(orders)
      ensures ValidateOrder(item, price, quantity).None? ==>
        && r == Some(Order(GenerateToken(now, random), item, price, quantity, Pending, now))
        && orders == AppendBounded(old(orders), r.value)
      ensures |orders| <= MAX_ORDERS || orders == old(orders)
    {
      if ValidateOrder(item, price, quantity).Some? {
        return None;
      }
      if |orders| >= MAX_ORDERS {
        orders := orders[|orders| - (MAX_ORDERS - 1)..];
      }
      var order := Order(GenerateToken(now, random), item, price, quantity, Pending, now);
      orders := orders + [order];
      r := Some(order);
    }

    /** `placeCartOrder`, with the cart handed in: one shared token, one
        pending order per line in cart order, then trim to 1000 and empty
        the cart. A line that fails validation stops the batch: the orders
        already pushed stay, nothing is trimmed and the cart is kept. */
    method PlaceCartOrder(cart: Cart.CartManager, now: nat, random: nat) returns (r: Result<string, OrderError>)
      requires random < 1000
      modifies this, cart
      ensures old(cart.lines) == [] ==>
        r == Failure(EmptyCart) && orders == old(orders) && cart.lines == old(cart.lines)
      ensures old(cart.lines) != [] && FirstInvalid(old(cart.lines)).Some? ==>
        var k := FirstInvalid(old(cart.lines)).value;
        var bad := old(cart.lines)[k];
        && r == Failure(ValidateOrder(bad.name, bad.price, bad.quantity).value)
        && orders == old(orders) + Batch(old(cart.lines)[..k], GenerateToken(now, random), now)
        && cart.lines == old(cart.lines)
      ensures old(cart.lines) != [] && FirstInvalid(old(cart.lines)).None? ==>
        && r == Success(GenerateToken(now, random))
        && orders == KeepLast(old(orders) + Batch(old(cart.lines), GenerateToken(now, random), now), MAX_ORDERS)
        && cart.lines == []
    {
      if |cart.lines| == 0 {
        return Failure(EmptyCart);
      }
      var token := GenerateToken(now, random);
      var items := cart.lines;
      var i := 0;
      while i < |items|
        invariant 0 <= i <= |items|
        invariant orders == old(orders) + Batch(items[..i], token, now)
        invariant forall j :: 0 <= j < i ==> ValidateOrder(items[j].name, items[j].price, items[j].quantity).None?
        invariant cart.lines == items
      {
        var err := ValidateOrder(items[i].name, items[i].price, items[i].quantity);
        if err.Some? {
          FirstInvalidAt(items, i);
          return Failure(err.value);
        }
        assert items[..i + 1][..i] == items[..i];
        orders := orders + [OrderFor(items[i], token, now)];
        i := i + 1;
      }
      assert items[..i] == items;
      assert FirstInvalid(items).None?;
      if |orders| > MAX_ORDERS {
        assert orders[|orders| - MAX_ORDERS..] == KeepLast(orders, MAX_ORDERS);
        orders := orders[|orders| - MAX_ORDERS..];
      }
      cart.lines := [];
      r := Success(token);
    }

    /** `updateOrderStatus`: reject an unknown status or a token with no
        orders, else set the status of every order under the token. */
    method UpdateOrderStatus(token: string, newStatus: string) returns (ok: bool)
      modifies this
      ensures ok <==> ParseStatus(newStatus).Some? && OrdersWithToken(old(orders), token) != []
      ensures !ok ==> orders == old(orders)
      ensures ok ==> orders == SetStatus(old(orders), token, ParseStatus(newStatus).value)
    {
      var status := ParseStatus(newStatus);
      if status.None? {
        return false;
      }
      if |OrdersWithToken(orders, token)| == 0 {
        return false;
      }
      var i := 0;
      while i < |orders|
        invariant 0 <= i <= |orders| == |old(orders)|
        invariant forall j :: 0 <= j < i ==> orders[j] == SetStatus(old(orders), token, status.value)[j]
        invariant forall j :: i <= j < |orders| ==> orders[j] == old(orders)[j]
      {
        if orders[i].token == token {
          orders := orders[i := orders[i].(status := status.value)];
        }
        i := i + 1;
      }
      ok := true;
    }
  }
}
