/** The page's shopping cart (cart.js): an ordered list of lines, one per
    item name, whose quantities stay between 1 and 99. Prices are whole
    rupees. */
module Cart {
  import opened Wrappers

  const MAX_QUANTITY: int := 99
  const MIN_QUANTITY: int := 1

  datatype CartLine = CartLine(name: string, price: int, quantity: int)

  datatype CartError = InvalidItemName | InvalidItemPrice | InvalidItemIndex

  /** The toast each cart operation raises, i.e. what the user is told. */
  datatype CartSignal =
    | ItemAdded(name: string)            // "<name> added to cart"
    | ItemQuantityUpdated(name: string)  // "<name> quantity updated in cart"
    | MaxReachedFor(name: string)        // "Maximum quantity (99) reached for <name>"
    | MaxReached                         // "Maximum quantity (99) reached"
    | QuantityUpdated                    // "Cart quantity updated"
    | ItemRemoved(name: string)          // "<name> removed from cart"
    | Failed(error: CartError)           // the caught error's message

  // ---------------------------------------------------------------------
  // Validation and lookup

  /** `validateCartItem`: the name is checked before the price. */
  function ValidateCartItem(name: string, price: int): (r: Option<CartError>)
    ensures r.None? <==> name != [] && price > 0
    ensures r == Some(InvalidItemName) <==> name == []
  {
    if name == [] then Some(InvalidItemName)
    else if price <= 0 then Some(InvalidItemPrice)
    else None
  }

  /** `cart.find(item => item.name === name)`, as the index of the first match. */
  function FindLine(lines: seq<CartLine>, name: string): (r: Option<nat>)
    ensures r.Some? ==> r.value < |lines| && lines[r.value].name == name
    ensures r.Some? ==> forall j :: 0 <= j < r.value ==> lines[j].name != name
    ensures r.None? <==> forall j :: 0 <= j < |lines| ==> lines[j].name != name
  {
    if lines == [] then None
    else if lines[0].name == name then Some(0)
    else match FindLine(lines[1..], name)
      case None => None
      case Some(i) => Some(i + 1)
  }

  // ---------------------------------------------------------------------
  // The cart after each operation

  /** The cart after `addToCart(name, price)`. */
  function AddItem(lines: seq<CartLine>, name: string, price: int): seq<CartLine>
  {
    if ValidateCartItem(name, price).Some? then lines
    else match FindLine(lines, name)
      case Some(i) =>
        if lines[i].quantity < MAX_QUANTITY
        then lines[i := lines[i].(quantity := lines[i].quantity + 1)]
        else lines
      case None => lines + [CartLine(name, price, 1)]
  }

  /** The cart after `cart.splice(index, 1)` (an invalid index changes nothing). */
  function RemoveAt(lines: seq<CartLine>, index: int): seq<CartLine>
  {
    if 0 <= index < |lines| then lines[..index] + lines[index + 1..] else lines
  }

  /** The cart after `updateQuantity(index, change)`. */
  function UpdateQuantityAt(lines: seq<CartLine>, index: int, change: int): seq<CartLine>
  {
    if !(0 <= index < |lines|) then lines
    else
      var q := lines[index].quantity + change;
      if q > MAX_QUANTITY then lines
      else if q >= MIN_QUANTITY then lines[index := lines[index].(quantity := q)]
      else RemoveAt(lines, index)
  }

  // ---------------------------------------------------------------------
  // The cart's invariant

  predicate QuantityInRange(q: int)
  {
    MIN_QUANTITY <= q <= MAX_QUANTITY
  }

  predicate UniqueNames(lines: seq<CartLine>)
  {
    forall i, j :: 0 <= i < j < |lines| ==> lines[i].name != lines[j].name
  }

  /** Every line passed validation, has a quantity in [1, 99], and no two
      lines share a name. */
  predicate WellFormed(lines: seq<CartLine>)
  {
    && (forall i :: 0 <= i < |lines| ==> lines[i].name != [] && lines[i].price > 0)
    && (forall i :: 0 <= i < |lines| ==> QuantityInRange(lines[i].quantity))
    && UniqueNames(lines)
  }

  // ---------------------------------------------------------------------
  // Totals shown by `updateCartDisplay`

  function LineTotal(line: CartLine): int
  {
    line.price * line.quantity
  }

  /** The displayed total: the sum of price times quantity over all lines. */
  function Total(lines: seq<CartLine>): int
  {
    if lines == [] then 0 else Total(lines[..|lines| - 1]) + LineTotal(lines[|lines| - 1])
  }

  /** The badge number: the sum of the quantities (`cart.reduce`). */
  function ItemCount(lines: seq<CartLine>): int
  {
    if lines == [] then 0 else ItemCount(lines[..|lines| - 1]) + lines[|lines| - 1].quantity
  }

  // ---------------------------------------------------------------------
  // Properties

  /** Both sums add up over a split of the cart. */
  lemma {:induction false} SumsAppend(a: seq<CartLine>, b: seq<CartLine>)
    ensures Total(a + b) == Total(a) + Total(b)
    ensures ItemCount(a + b) == ItemCount(a) + ItemCount(b)
  {
    if b == [] {
      assert a + b == a;
    } else {
      var b' := b[..|b| - 1];
      assert (a + b)[..|a + b| - 1] == a + b';
      SumsAppend(a, b');
    }
  }

  /** One more line at the end adds its share to both sums. */
  lemma SumsSnoc(lines: seq<CartLine>, line: CartLine)
    ensures Total(lines + [line]) == Total(lines) + LineTotal(line)
    ensures ItemCount(lines + [line]) == ItemCount(lines) + line.quantity
  {
    assert (lines + [line])[..|lines|] == lines;
  }

  /** A one-line cart's sums are that line's. */
  lemma SumsSingle(line: CartLine)
    ensures Total([line]) == LineTotal(line) && ItemCount([line]) == line.quantity
  {
    assert [line][..0] == [];
  }

  /** Replacing line i changes both sums by the difference of the two lines. */
  lemma SumsReplace(lines: seq<CartLine>, i: nat, line: CartLine)
    requires i < |lines|
    ensures Total(lines[i := line]) == Total(lines) - LineTotal(lines[i]) + LineTotal(line)
    ensures ItemCount(lines[i := line]) == ItemCount(lines) - lines[i].quantity + line.quantity
  {
    var pre, post := lines[..i], lines[i + 1..];
    assert lines == (pre + [lines[i]]) + post;
    assert lines[i := line] == (pre + [line]) + post;
    SumsAppend(pre + [lines[i]], post);
    SumsAppend(pre + [line], post);
    SumsAppend(pre, [lines[i]]);
    SumsAppend(pre, [line]);
    SumsSingle(line);
    SumsSingle(lines[i]);
  }

  /** Removing line i takes exactly that line's share out of both sums. */
  lemma {:induction false} SumsRemove(lines: seq<CartLine>, i: nat)
    requires i < |lines|
    ensures Total(RemoveAt(lines, i)) == Total(lines) - LineTotal(lines[i])
    ensures ItemCount(RemoveAt(lines, i)) == ItemCount(lines) - lines[i].quantity
  {
    var n := |lines|;
    var init, last := lines[..n - 1], lines[n - 1];
    SumsSnoc(init, last);
    assert init + [last] == lines;
    if i == n - 1 {
      assert RemoveAt(lines, i) == init;
    } else {
      SumsRemove(init, i);
      var r := RemoveAt(init, i);
      assert RemoveAt(lines, i) == r + [last];
      SumsSnoc(r, last);
      assert init[i] == lines[i];
    }
  }

  /** `removeFromCart(i)` with a valid index deletes exactly line i and
      keeps the others in order; an invalid index changes nothing. */
  lemma RemoveAtShape(lines: seq<CartLine>, index: int)
    ensures !(0 <= index < |lines|) ==> RemoveAt(lines, index) == lines
    ensures 0 <= index < |lines| ==>
      && |RemoveAt(lines, index)| == |lines| - 1
      && (forall j :: 0 <= j < index ==> RemoveAt(lines, index)[j] == lines[j])
      && (forall j :: index <= j < |lines| - 1 ==> RemoveAt(lines, index)[j] == lines[j + 1])
  {
    if 0 <= index < |lines| {
      var r := RemoveAt(lines, index);
      assert r == lines[..index] + lines[index + 1..];
      assert forall j :: index <= j < |lines| - 1 ==> r[j] == lines[index + 1..][j - index];
    }
  }

  /** `addToCart` with an empty name or a price of 0 or less leaves the cart as it was. */
  lemma AddItemInvalid(lines: seq<CartLine>, name: string, price: int)
    requires name == [] || price <= 0
    ensures AddItem(lines, name, price) == lines
  {
  }

  /** `addToCart` for a name already in the cart: below 99 its first line
      gains one unit and nothing else changes, so both sums grow by that
      line's price and by 1; at 99 the cart is unchanged. */
  lemma AddItemExisting(lines: seq<CartLine>, name: string, price: int, i: nat)
    requires ValidateCartItem(name, price).None?
    requires FindLine(lines, name) == Some(i)
    ensures lines[i].quantity >= MAX_QUANTITY ==> AddItem(lines, name, price) == lines
    ensures lines[i].quantity < MAX_QUANTITY ==>
      var r := AddItem(lines, name, price);
      && |r| == |lines|
      && r[i] == lines[i].(quantity := lines[i].quantity + 1)
      && (forall j :: 0 <= j < |lines| && j != i ==> r[j] == lines[j])
      && Total(r) == Total(lines) + lines[i].price
      && ItemCount(r) == ItemCount(lines) + 1
  {
    if lines[i].quantity < MAX_QUANTITY {
      var line := lines[i].(quantity := lines[i].quantity + 1);
      assert AddItem(lines, name, price) == lines[i := line];
      SumsReplace(lines, i, line);
      LineTotalStep(lines[i], 1);
    }
  }

  /** `addToCart` for a new name appends `{name, price, quantity: 1}` at the
      end, touching no other line; both sums grow by price and by 1. */
  lemma AddItemNew(lines: seq<CartLine>, name: string, price: int)
    requires ValidateCartItem(name, price).None?
    requires FindLine(lines, name).None?
    ensures AddItem(lines, name, price) == lines + [CartLine(name, price, 1)]
    ensures Total(AddItem(lines, name, price)) == Total(lines) + price
    ensures ItemCount(AddItem(lines, name, price)) == ItemCount(lines) + 1
  {
    SumsAppend(lines, [CartLine(name, price, 1)]);
    SumsSingle(CartLine(name, price, 1));
  }

  /** Adding the same new item twice yields one line of quantity 2. */
  lemma AddTwiceMerges(lines: seq<CartLine>, name: string, price: int)
    requires ValidateCartItem(name, price).None?
    requires FindLine(lines, name).None?
    ensures AddItem(AddItem(lines, name, price), name, price) == lines + [CartLine(name, price, 2)]
  {
    var once := lines + [CartLine(name, price, 1)];
    assert AddItem(lines, name, price) == once;
    assert once[|lines|].name == name;
    assert forall j :: 0 <= j < |lines| ==> once[j].name != name;
    assert FindLine(once, name) == Some(|lines|);
    assert once[|lines| := once[|lines|].(quantity := 2)] == lines + [CartLine(name, price, 2)];
  }

  /** `updateQuantity` with an index outside [0, length) changes nothing. */
  lemma UpdateQuantityBadIndex(lines: seq<CartLine>, index: int, change: int)
    requires !(0 <= index < |lines|)
    ensures UpdateQuantityAt(lines, index, change) == lines
  {
  }

  /** `updateQuantity` to a quantity above 99 changes nothing. */
  lemma UpdateQuantityAboveMax(lines: seq<CartLine>, index: int, change: int)
    requires 0 <= index < |lines| && lines[index].quantity + change > MAX_QUANTITY
    ensures UpdateQuantityAt(lines, index, change) == lines
  {
  }

  /** `updateQuantity` to a quantity in [1, 99] sets only that line's
      quantity; both sums move by the change. */
  lemma UpdateQuantityInRange(lines: seq<CartLine>, index: int, change: int)
    requires 0 <= index < |lines| && QuantityInRange(lines[index].quantity + change)
    ensures UpdateQuantityAt(lines, index, change) == lines[index := lines[index].(quantity := lines[index].quantity + change)]
    ensures Total(UpdateQuantityAt(lines, index, change)) == Total(lines) + lines[index].price * change
    ensures ItemCount(UpdateQuantityAt(lines, index, change)) == ItemCount(lines) + change
  {
    var line := lines[index];
    var updated := line.(quantity := line.quantity + change);
    assert UpdateQuantityAt(lines, index, change) == lines[index := updated];
    SumsReplace(lines, index, updated);
    LineTotalStep(line, change);
  }

  /** `updateQuantity` to a quantity below 1 removes the line: the cart is
      one line shorter and its total drops by that line's share. */
  lemma UpdateQuantityBelowMin(lines: seq<CartLine>, index: int, change: int)
    requires 0 <= index < |lines| && lines[index].quantity + change < MIN_QUANTITY
    ensures UpdateQuantityAt(lines, index, change) == RemoveAt(lines, index)
    ensures |UpdateQuantityAt(lines, index, change)| == |lines| - 1
    ensures Total(UpdateQuantityAt(lines, index, change)) == Total(lines) - LineTotal(lines[index])
  {
    SumsRemove(lines, index);
  }

  /** Changing a line's quantity by `change` changes its share by price times change. */
  lemma LineTotalStep(line: CartLine, change: int)
    ensures LineTotal(line.(quantity := line.quantity + change)) == LineTotal(line) + line.price * change
  {
    calc {
      LineTotal(line.(quantity := line.quantity + change));
      line.price * (line.quantity + change);
      line.price * line.quantity + line.price * change;
    }
  }

  /** Deleting a line keeps the cart's invariant. */
  lemma RemoveAtPreserves(lines: seq<CartLine>, index: int)
    requires WellFormed(lines)
    ensures WellFormed(RemoveAt(lines, index))
  {
    if 0 <= index < |lines| {
      var r := RemoveAt(lines, index);
      forall i, j | 0 <= i < j < |r| ensures r[i].name != r[j].name {
        var i' := if i < index then i else i + 1;
        var j' := if j < index then j else j + 1;
        assert r[i] == lines[i'] && r[j] == lines[j'];
      }
    }
  }

  /** `addToCart` keeps the invariant: a new line is valid, has quantity 1
      and a name no other line has; a bumped line stays at most 99. */
  lemma AddItemPreserves(lines: seq<CartLine>, name: string, price: int)
    requires WellFormed(lines)
    ensures WellFormed(AddItem(lines, name, price))
  {
    var r := AddItem(lines, name, price);
    if ValidateCartItem(name, price).None? {
      match FindLine(lines, name)
      case Some(i) =>
        if lines[i].quantity < MAX_QUANTITY {
          assert forall j :: 0 <= j < |r| ==> r[j].name == lines[j].name;
        }
      case None =>
        assert forall j :: 0 <= j < |lines| ==> r[j] == lines[j];
    }
  }

  /** `updateQuantity` keeps the invariant: it either changes nothing, sets
      a quantity inside [1, 99], or deletes the line. */
  lemma UpdateQuantityPreserves(lines: seq<CartLine>, index: int, change: int)
    requires WellFormed(lines)
    ensures WellFormed(UpdateQuantityAt(lines, index, change))
  {
    if 0 <= index < |lines| {
      var q := lines[index].quantity + change;
      if q < MIN_QUANTITY {
        RemoveAtPreserves(lines, index);
      } else if q <= MAX_QUANTITY {
        var r := UpdateQuantityAt(lines, index, change);
        assert forall j :: 0 <= j < |r| ==> r[j].name == lines[j].name;
      }
    }
  }

  // ---------------------------------------------------------------------
  // The cart manager: the page-global `cart` array and its operations.
  // Saving to storage and redrawing the panel are left out.

  class CartManager {
    var lines: seq<CartLine>

    constructor ()
      ensures lines == []
    {
      lines := [];
    }

    /** `addToCart`: validate, then bump the existing line or append a new one. */
    method AddToCart(name: string, price: int) returns (signal: CartSignal)
      modifies this
      ensures lines == AddItem(old(lines), name, price)
      ensures old(WellFormed(lines)) ==> WellFormed(lines)
      ensures ValidateCartItem(name, price).Some? ==> signal == Failed(ValidateCartItem(name, price).value)
      ensures ValidateCartItem(name, price).None? ==>
        match FindLine(old(lines), name)
        case None => signal == ItemAdded(name)
        case Some(i) =>
          signal == if old(lines)[i].quantity < MAX_QUANTITY then ItemQuantityUpdated(name) else MaxReachedFor(name)
    {
      if old(WellFormed(lines)) {
        AddItemPreserves(lines, name, price);
      }
      var err := ValidateCartItem(name, price);
      if err.Some? {
        return Failed(err.value);
      }
      var existing := FindLine(lines, name);
      match existing
      case Some(i) =>
        if lines[i].quantity < MAX_QUANTITY {
          lines := lines[i := lines[i].(quantity := lines[i].quantity + 1)];
          signal := ItemQuantityUpdated(name);
        } else {
          signal := MaxReachedFor(name);
        }
      case None =>
        lines := lines + [CartLine(name, price, 1)];
        signal := ItemAdded(name);
    }

    /** `removeFromCart(index)`: delete one line, or report a bad index. */
    method RemoveFromCart(index: int) returns (signal: CartSignal)
      modifies this
      ensures lines == RemoveAt(old(lines), index)
      ensures old(WellFormed(lines)) ==> WellFormed(lines)
      ensures signal == if 0 <= index < |old(lines)| then ItemRemoved(old(lines)[index].name) else Failed(InvalidItemIndex)
    {
      if old(WellFormed(lines)) {
        RemoveAtPreserves(lines, index);
      }
      if index < 0 || index >= |lines| {
        return Failed(InvalidItemIndex);
      }
      var removed := lines[index];
      lines := lines[..index] + lines[index + 1..];
      signal := ItemRemoved(removed.name);
    }

    /** `updateQuantity(index, change)`: reject above 99, set within range,
        and fall through to removal below 1. */
    method UpdateQuantity(index: int, change: int) returns (signal: CartSignal)
      modifies this
      ensures lines == UpdateQuantityAt(old(lines), index, change)
      ensures old(WellFormed(lines)) ==> WellFormed(lines)
      ensures !(0 <= index < |old(lines)|) ==> signal == Failed(InvalidItemIndex)
      ensures 0 <= index < |old(lines)| ==>
        var q := old(lines)[index].quantity + change;
        signal == if q > MAX_QUANTITY then MaxReached
                  else if q >= MIN_QUANTITY then QuantityUpdated
                  else ItemRemoved(old(lines)[index].name)
    {
      if old(WellFormed(lines)) {
        UpdateQuantityPreserves(lines, index, change);
      }
      if index < 0 || index >= |lines| {
        return Failed(InvalidItemIndex);
      }
      var newQuantity := lines[index].quantity + change;
      if newQuantity > MAX_QUANTITY {
        return MaxReached;
      }
      if newQuantity >= MIN_QUANTITY {
        lines := lines[index := lines[index].(quantity := newQuantity)];
        signal := QuantityUpdated;
      } else {
        signal := RemoveFromCart(index);
      }
    }

    /** The running total accumulated by `updateCartDisplay`. */
    method ComputeTotal() returns (total: int)
      ensures total == Total(lines)
    {
      total := 0;
      var i := 0;
      while i < |lines|
        invariant 0 <= i <= |lines|
        invariant total == Total(lines[..i])
      {
        assert lines[..i + 1][..i] == lines[..i];
        total := total + lines[i].price * lines[i].quantity;
        i := i + 1;
      }
      assert lines[..i] == lines;
    }
  }
}
