/** The older single-page cart (script.js): lines keyed by name with no
    quantity cap, removal of every line with a name, and a checkout that
    summarises the cart and empties it. Independent of the Cart module. */
module LegacyCart {
  import opened Text
  import opened Sequences

  /** A cart line: the menu item's name and price plus its quantity. */
  datatype LegacyLine = LegacyLine(name: string, price: int, quantity: int)

  /** What checkout reports: the "Cart is empty!" toast, or the alert
      listing the ordered lines. */
  datatype Checkout = CartEmpty | Placed(details: string)

  /** `cart.find(i => i.name === name)`, as the index of the first match. */
  function FirstNamed(lines: seq<LegacyLine>, name: string): (r: int)
    ensures -1 <= r < |lines|
    ensures r >= 0 ==> lines[r].name == name && forall j :: 0 <= j < r ==> lines[j].name != name
    ensures r == -1 <==> forall j :: 0 <= j < |lines| ==> lines[j].name != name
  {
    if lines == [] then -1
    else if lines[0].name == name then 0
    else
      var k := FirstNamed(lines[1..], name);
      if k == -1 then -1 else k + 1
  }

  /** The cart after `addToCart(item)`. */
  function Added(lines: seq<LegacyLine>, name: string, price: int): seq<LegacyLine>
  {
    var k := FirstNamed(lines, name);
    if k >= 0 then lines[k := lines[k].(quantity := lines[k].quantity + 1)]
    else lines + [LegacyLine(name, price, 1)]
  }

  /** `cart.filter(i => i.name !== name)`. */
  function Without(lines: seq<LegacyLine>, name: string): seq<LegacyLine>
  {
    if lines == [] then []
    else if lines[0].name == name then Without(lines[1..], name)
    else [lines[0]] + Without(lines[1..], name)
  }

  /** One line of the order summary. */
  function LineText(l: LegacyLine): string
  {
    l.name + " x " + IntToString(l.quantity)
  }

  /** The summary `placeOrder` alerts: the lines' texts, in cart order,
      separated by ", ". */
  function OrderDetails(lines: seq<LegacyLine>): string
  {
    Join(Map(LineText, lines), ", ")
  }

  /** `searchMenu`: an item stays visible iff its lower-cased name
      contains the lower-cased input. */
  predicate SearchShows(name: string, input: string)
  {
    Contains(Lower(name), Lower(input))
  }

  // ---------------------------------------------------------------------
  // Properties

  /** Adding a name already in the cart raises that line's quantity by
      one, whatever it was, and changes nothing else. */
  lemma AddExistingIncrements(lines: seq<LegacyLine>, name: string, price: int, i: nat)
    requires i < |lines| && lines[i].name == name
    ensures var k := FirstNamed(lines, name);
      && 0 <= k <= i
      && Added(lines, name, price) == lines[k := lines[k].(quantity := lines[k].quantity + 1)]
      && |Added(lines, name, price)| == |lines|
  {
  }

  /** Adding a new name appends a line with quantity one at the end. */
  lemma AddNewAppends(lines: seq<LegacyLine>, name: string, price: int)
    requires forall j :: 0 <= j < |lines| ==> lines[j].name != name
    ensures Added(lines, name, price) == lines + [LegacyLine(name, price, 1)]
  {
  }

  /** The displayed count is the number of lines: adding a name twice
      counts once, while its quantity reaches two. */
  lemma CountIsLines(lines: seq<LegacyLine>, name: string, price: int)
    requires forall j :: 0 <= j < |lines| ==> lines[j].name != name
    ensures var twice := Added(Added(lines, name, price), name, price);
      |twice| == |lines| + 1 && twice[|lines|] == LegacyLine(name, price, 2)
  {
    var once := Added(lines, name, price);
    assert once == lines + [LegacyLine(name, price, 1)];
    assert once[|lines|].name == name;
    assert forall j :: 0 <= j < |lines| ==> once[j].name != name;
    assert FirstNamed(once, name) == |lines|;
  }

  /** Removal keeps the other lines in order and leaves none with the name. */
  lemma {:induction false} WithoutSpec(lines: seq<LegacyLine>, name: string)
    ensures IsSubsequence(Without(lines, name), lines)
    ensures forall l :: l in Without(lines, name) ==> l.name != name
    ensures forall i :: 0 <= i < |lines| && lines[i].name != name ==> lines[i] in Without(lines, name)
  {
    if lines != [] {
      WithoutSpec(lines[1..], name);
      forall i | 0 <= i < |lines| && lines[i].name != name
        ensures lines[i] in Without(lines, name)
      {
        if i > 0 {
          assert lines[i] == lines[1..][i - 1];
        }
      }
    }
  }

  /** Removal keeps each line of another name as often as the cart holds
      it, and no line of the name: equal lines are all kept. */
  lemma {:induction false} WithoutCount(lines: seq<LegacyLine>, name: string, l: LegacyLine)
    ensures multiset(Without(lines, name))[l] == if l.name != name then multiset(lines)[l] else 0
  {
    if lines != [] {
      WithoutCount(lines[1..], name, l);
      assert lines == [lines[0]] + lines[1..];
    }
  }

  /** Removing twice is removing once. */
  lemma {:induction false} WithoutIdempotent(lines: seq<LegacyLine>, name: string)
    ensures Without(Without(lines, name), name) == Without(lines, name)
  {
    if lines != [] {
      WithoutIdempotent(lines[1..], name);
    }
  }

  /** Each line's "name x quantity" text is part of the summary. */
  lemma DetailsListEveryLine(lines: seq<LegacyLine>, i: nat)
    requires i < |lines|
    ensures Contains(OrderDetails(lines), LineText(lines[i]))
  {
    JoinContainsParts(Map(LineText, lines), ", ", i);
  }

  /** The summary is built line by line: nothing for an empty cart, the
      line's text for one line, and each further line adds ", " and its
      text at the end, so the texts appear in cart order. */
  lemma DetailsShape(lines: seq<LegacyLine>, l: LegacyLine)
    ensures OrderDetails([]) == ""
    ensures OrderDetails([l]) == LineText(l)
    ensures lines != [] ==> OrderDetails(lines + [l]) == OrderDetails(lines) + ", " + LineText(l)
  {
    var texts := Map(LineText, lines + [l]);
    assert (lines + [l])[..|lines|] == lines;
    assert texts == Map(LineText, lines) + [LineText(l)];
    assert texts[..|texts| - 1] == Map(LineText, lines);
  }

  /** The summary is exactly as long as the line texts and separators. */
  lemma DetailsLength(lines: seq<LegacyLine>)
    requires lines != []
    ensures |OrderDetails(lines)| == TotalLength(Map(LineText, lines)) + (|lines| - 1) * 2
  {
    JoinLength(Map(LineText, lines), ", ");
  }

  /** An empty input shows every item, and showing ignores the case of the input. */
  lemma SearchShowsAll(name: string, input: string)
    ensures SearchShows(name, [])
    ensures SearchShows(name, input) <==> SearchShows(name, Lower(input))
  {
    ContainsEmpty(Lower(name));
    LowerIdempotent(input);
  }

  // ---------------------------------------------------------------------
  // The page's global cart

  class LegacyCartState {
    var cart: seq<LegacyLine>

    /** Start from the saved cart, or an empty one. */
    constructor (saved: seq<LegacyLine>)
      ensures cart == saved
    {
      cart := saved;
    }

    method AddToCart(name: string, price: int)
      modifies this
      ensures cart == Added(old(cart), name, price)
    {
      var i := 0;
      while i < |cart| && cart[i].name != name
        invariant 0 <= i <= |cart|
        invariant forall j :: 0 <= j < i ==> cart[j].name != name
      {
        i := i + 1;
      }
      if i < |cart| {
        cart := cart[i := cart[i].(quantity := cart[i].quantity + 1)];
      } else {
        cart := cart + [LegacyLine(name, price, 1)];
      }
    }

    method RemoveFromCart(name: string)
      modifies this
      ensures cart == Without(old(cart), name)
    {
      cart := Without(cart, name);
    }

    /** The cart badge: the number of lines. */
    function CartCount(): nat
      reads this
    {
      |cart|
    }

    method PlaceOrder() returns (outcome: Checkout)
      modifies this
      ensures old(cart) == [] ==> outcome == CartEmpty && cart == old(cart)
      ensures old(cart) != [] ==> outcome == Placed(OrderDetails(old(cart))) && cart == []
    {
      if |cart| == 0 {
        return CartEmpty;
      }
      outcome := Placed(OrderDetails(cart));
      cart := [];
    }
  }
}
