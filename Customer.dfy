/**
 * The customer screen's cart: a list of menu items with quantities, the two
 * totals it shows, and the "place order" action that switches the screen to
 * order tracking.
 */
module Customer {
  import opened Lists

  /** A dish as the customer menu lists it; prices are whole rupees. */
  datatype MenuItem = MenuItem(
    id: string,
    name: string,
    price: int,
    description: string,
    image: Option<string>,
    rating: real,
    category: string)

  /** A cart line: the item as it was first added, plus how many of it. */
  datatype CartItem = CartItem(item: MenuItem, quantity: int)

  type Cart = seq<CartItem>

  datatype CustomerView = Vendors | Menu | CartView | Tracking

  datatype OrderError = EmptyCart

  datatype Outcome = Placed | Refused(error: OrderError)

  /** Every id appears on at most one line. */
  predicate UniqueIds(cart: Cart)
  {
    forall i, j :: 0 <= i < j < |cart| ==> cart[i].item.id != cart[j].item.id
  }

  /** The cart invariant: unique ids and no line with fewer than one unit. */
  predicate WellFormed(cart: Cart)
  {
    UniqueIds(cart) && forall i :: 0 <= i < |cart| ==> cart[i].quantity >= 1
  }

  /** The cart's `find` by id, given as the index of the first line carrying `id`. */
  function Find(cart: Cart, id: string): (r: Option<nat>)
    ensures r.Some? ==> r.value < |cart| && cart[r.value].item.id == id
    ensures r.Some? ==> forall j :: 0 <= j < r.value ==> cart[j].item.id != id
    ensures r.None? <==> forall j :: 0 <= j < |cart| ==> cart[j].item.id != id
  {
    if cart == [] then None
    else if cart[0].item.id == id then Some(0)
    else match Find(cart[1..], id)
      case None => None
      case Some(k) => Some(k + 1)
  }

  /** The `map` that adds `delta` to the quantity of every line carrying `id`. */
  function Bump(cart: Cart, id: string, delta: int): (r: Cart)
    ensures |r| == |cart|
    ensures forall i :: 0 <= i < |cart| ==> r[i].item == cart[i].item
  {
    seq(|cart|, i requires 0 <= i < |cart| =>
      if cart[i].item.id == id then cart[i].(quantity := cart[i].quantity + delta) else cart[i])
  }

  function Keeps(id: string): CartItem -> bool
  {
    (line: CartItem) => line.item.id != id
  }

  /** The `filter` that drops every line carrying `id`. */
  function Without(cart: Cart, id: string): (r: Cart)
    ensures |r| <= |cart|
    ensures forall i :: 0 <= i < |r| ==> r[i] in cart && r[i].item.id != id
    ensures forall i :: 0 <= i < |cart| && cart[i].item.id != id ==> cart[i] in r
  {
    Filter(cart, Keeps(id))
  }

  /** addToCart (CustomerApp.tsx:100-112), on the cart value. */
  function Added(cart: Cart, item: MenuItem): (r: Cart)
    ensures |r| == |cart| + (if Find(cart, item.id).None? then 1 else 0)
    ensures forall i :: 0 <= i < |cart| ==> r[i].item == cart[i].item
    ensures Find(r, item.id).Some?
  {
    match Find(cart, item.id)
    case Some(k) =>
      var r := Bump(cart, item.id, 1);
      assert r[k].item.id == item.id;
      r
    case None =>
      var r := cart + [CartItem(item, 1)];
      assert r[|cart|].item.id == item.id;
      r
  }

  /** removeFromCart (CustomerApp.tsx:114-125), on the cart value. */
  function Removed(cart: Cart, id: string): (r: Cart)
    ensures |r| <= |cart|
    ensures forall i :: 0 <= i < |r| && r[i].item.id != id ==> r[i] in cart
    ensures forall i :: 0 <= i < |cart| && cart[i].item.id != id ==> cart[i] in r
    ensures Find(cart, id).None? ==> r == cart
    ensures Find(cart, id).Some? && cart[Find(cart, id).value].quantity <= 1 ==> Find(r, id).None?
  {
    match Find(cart, id)
    case Some(k) =>
      if cart[k].quantity > 1 then Bump(cart, id, -1) else Without(cart, id)
    case None =>
      WithoutAbsent(cart, id);
      Without(cart, id)
  }

  function Units(line: CartItem): int { line.quantity }

  function LinePrice(line: CartItem): int { line.item.price * line.quantity }

  /**
   * getTotalItems: the sum of the quantities. In a well-formed cart every line
   * holds a unit, so the count is at least the number of lines.
   */
  function TotalItems(cart: Cart): (r: int)
    ensures WellFormed(cart) ==> r >= |cart|
    ensures WellFormed(cart) ==> (r == 0 <==> cart == [])
  {
    SumBound(cart, Units, 1);
    Sum(cart, Units)
  }

  /** getTotalPrice: the sum of price times quantity, never negative when no price or quantity is. */
  function TotalPrice(cart: Cart): (r: int)
    ensures (forall i :: 0 <= i < |cart| ==> cart[i].item.price >= 0 && cart[i].quantity >= 0) ==> r >= 0
  {
    SumBound(cart, LinePrice, 0);
    Sum(cart, LinePrice)
  }

  /** placeOrder's decision: refuse an empty cart, otherwise go to tracking. */
  function Placement(cart: Cart, view: CustomerView): (r: (CustomerView, Outcome))
    ensures r.1 == Refused(EmptyCart) <==> |cart| == 0
    ensures r.1 == Placed <==> |cart| > 0
    ensures r.0 == if |cart| == 0 then view else Tracking
  {
    if |cart| == 0 then (view, Refused(EmptyCart)) else (Tracking, Placed)
  }

  // ---------------------------------------------------------------------------
  // What each operation does to a line

  /** With unique ids, bumping `id` changes exactly the one line that carries it. */
  lemma BumpOne(cart: Cart, k: nat, delta: int)
    requires UniqueIds(cart) && k < |cart|
    ensures Bump(cart, cart[k].item.id, delta) == cart[k := cart[k].(quantity := cart[k].quantity + delta)]
  {
  }

  /** With unique ids, dropping `id` deletes exactly the line at its index. */
  lemma WithoutOne(cart: Cart, k: nat)
    requires UniqueIds(cart) && k < |cart|
    ensures Without(cart, cart[k].item.id) == cart[..k] + cart[k + 1..]
  {
    FilterDropsOne(cart, k, Keeps(cart[k].item.id));
  }

  /** Dropping an id that is not in the cart leaves it as it is. */
  lemma WithoutAbsent(cart: Cart, id: string)
    requires Find(cart, id).None?
    ensures Without(cart, id) == cart
  {
    FilterKeepsAll(cart, Keeps(id));
  }

  /** Adding an item already in the cart raises that line by one and touches nothing else. */
  lemma AddExisting(cart: Cart, item: MenuItem, k: nat)
    requires UniqueIds(cart)
    requires Find(cart, item.id) == Some(k)
    ensures Added(cart, item) == cart[k := cart[k].(quantity := cart[k].quantity + 1)]
  {
    BumpOne(cart, k, 1);
  }

  /** Adding an item not yet in the cart appends a line of quantity one. */
  lemma AddAbsent(cart: Cart, item: MenuItem)
    requires Find(cart, item.id).None?
    ensures Added(cart, item) == cart + [CartItem(item, 1)]
  {
  }

  /** Removing an id with more than one unit lowers that line by one. */
  lemma RemoveDecrements(cart: Cart, k: nat)
    requires UniqueIds(cart) && k < |cart| && cart[k].quantity > 1
    ensures Removed(cart, cart[k].item.id) == cart[k := cart[k].(quantity := cart[k].quantity - 1)]
  {
    assert Find(cart, cart[k].item.id) == Some(k);
    BumpOne(cart, k, -1);
  }

  /** Removing an id with one unit deletes its line. */
  lemma RemoveDeletes(cart: Cart, k: nat)
    requires UniqueIds(cart) && k < |cart| && cart[k].quantity == 1
    ensures Removed(cart, cart[k].item.id) == cart[..k] + cart[k + 1..]
  {
    assert Find(cart, cart[k].item.id) == Some(k);
    WithoutOne(cart, k);
  }

  /** Removing an id that is not in the cart changes nothing. */
  lemma RemoveAbsent(cart: Cart, id: string)
    requires Find(cart, id).None?
    ensures Removed(cart, id) == cart
  {
    WithoutAbsent(cart, id);
  }

  // ---------------------------------------------------------------------------
  // The cart invariant

  lemma AddPreservesWellFormed(cart: Cart, item: MenuItem)
    requires WellFormed(cart)
    ensures WellFormed(Added(cart, item))
  {
    match Find(cart, item.id)
    case Some(k) => AddExisting(cart, item, k);
    case None =>
  }

  /** Lowering one line by one unit keeps the invariant when that line held more than one. */
  lemma DecrementPreservesWellFormed(cart: Cart, k: nat)
    requires WellFormed(cart) && k < |cart| && cart[k].quantity > 1
    ensures WellFormed(cart[k := cart[k].(quantity := cart[k].quantity - 1)])
  {
  }

  /** Deleting one line keeps the invariant. */
  lemma DeletePreservesWellFormed(cart: Cart, k: nat)
    requires WellFormed(cart) && k < |cart|
    ensures WellFormed(cart[..k] + cart[k + 1..])
  {
    var r := cart[..k] + cart[k + 1..];
    assert forall i :: 0 <= i < |r| ==> r[i] == cart[if i < k then i else i + 1];
  }

  lemma RemovePreservesWellFormed(cart: Cart, id: string)
    requires WellFormed(cart)
    ensures WellFormed(Removed(cart, id))
  {
    var found := Find(cart, id);
    if found.Some? {
      var k := found.value;
      if cart[k].quantity > 1 {
        RemoveDecrements(cart, k);
        DecrementPreservesWellFormed(cart, k);
      } else {
        RemoveDeletes(cart, k);
        DeletePreservesWellFormed(cart, k);
      }
    } else {
      RemoveAbsent(cart, id);
    }
  }

  // ---------------------------------------------------------------------------
  // The totals

  /** The price that adding `item` puts on the bill: the stored line's price if present. */
  function AddedPrice(cart: Cart, item: MenuItem): int
  {
    match Find(cart, item.id)
    case Some(k) => cart[k].item.price
    case None => item.price
  }

  /** Raising a line by one unit raises the item count by one and the bill by that line's price. */
  lemma TotalsAfterIncrement(cart: Cart, k: nat)
    requires k < |cart|
    ensures var higher := cart[k := cart[k].(quantity := cart[k].quantity + 1)];
      TotalItems(higher) == TotalItems(cart) + 1 &&
      TotalPrice(higher) == TotalPrice(cart) + cart[k].item.price
  {
    var line := cart[k];
    var higher := line.(quantity := line.quantity + 1);
    SumUpdate(cart, k, higher, Units);
    SumUpdate(cart, k, higher, LinePrice);
    assert LinePrice(higher) == LinePrice(line) + line.item.price by {
      assert line.item.price * (line.quantity + 1) == line.item.price * line.quantity + line.item.price;
    }
  }

  lemma TotalsAfterAdd(cart: Cart, item: MenuItem)
    requires UniqueIds(cart)
    ensures TotalItems(Added(cart, item)) == TotalItems(cart) + 1
    ensures TotalPrice(Added(cart, item)) == TotalPrice(cart) + AddedPrice(cart, item)
  {
    var found := Find(cart, item.id);
    if found.Some? {
      AddExisting(cart, item, found.value);
      TotalsAfterIncrement(cart, found.value);
    } else {
      SumSnoc(cart, CartItem(item, 1), Units);
      SumSnoc(cart, CartItem(item, 1), LinePrice);
    }
  }

  /** Lowering a line by one unit lowers the item count by one and the bill by that line's price. */
  lemma TotalsAfterDecrement(cart: Cart, k: nat)
    requires k < |cart|
    ensures var lower := cart[k := cart[k].(quantity := cart[k].quantity - 1)];
      TotalItems(lower) == TotalItems(cart) - 1 &&
      TotalPrice(lower) == TotalPrice(cart) - cart[k].item.price
  {
    var line := cart[k];
    var lower := line.(quantity := line.quantity - 1);
    SumUpdate(cart, k, lower, Units);
    SumUpdate(cart, k, lower, LinePrice);
    assert LinePrice(lower) == LinePrice(line) - line.item.price by {
      assert line.item.price * (line.quantity - 1) == line.item.price * line.quantity - line.item.price;
    }
  }

  lemma TotalsAfterRemove(cart: Cart, id: string)
    requires WellFormed(cart)
    ensures Find(cart, id).Some? ==> TotalItems(Removed(cart, id)) == TotalItems(cart) - 1
    ensures Find(cart, id).Some? ==>
      TotalPrice(Removed(cart, id)) == TotalPrice(cart) - cart[Find(cart, id).value].item.price
    ensures Find(cart, id).None? ==> Removed(cart, id) == cart
  {
    var found := Find(cart, id);
    if found.Some? {
      var k := found.value;
      if cart[k].quantity > 1 {
        RemoveDecrements(cart, k);
        TotalsAfterDecrement(cart, k);
      } else {
        RemoveDeletes(cart, k);
        SumRemoveAt(cart, k, Units);
        SumRemoveAt(cart, k, LinePrice);
      }
    } else {
      RemoveAbsent(cart, id);
    }
  }

  /** Adding an item and then removing it by id gives back the cart one started with. */
  lemma AddThenRemove(cart: Cart, item: MenuItem)
    requires WellFormed(cart)
    ensures Removed(Added(cart, item), item.id) == cart
  {
    match Find(cart, item.id)
    case Some(k) =>
      AddExisting(cart, item, k);
      var bumped := Added(cart, item);
      assert UniqueIds(bumped);
      RemoveDecrements(bumped, k);
      assert bumped[k := bumped[k].(quantity := bumped[k].quantity - 1)] == cart;
    case None =>
      var grown := cart + [CartItem(item, 1)];
      var n := |cart|;
      assert Find(grown, item.id) == Some(n) by {
        assert grown[n].item.id == item.id;
        assert forall j :: 0 <= j < n ==> grown[j].item.id != item.id;
      }
      assert UniqueIds(grown);
      RemoveDeletes(grown, n);
      assert grown[..n] + grown[n + 1..] == cart;
  }

  /** Two dishes of the sample menu (CustomerApp.tsx:65-81). */
  const Bajji := MenuItem("1", "Mirchi Bajji", 60, "", None, 4.4, "Snacks")
  const Chai := MenuItem("2", "Irani Chai", 25, "", None, 4.6, "Beverages")

  /** Adding Mirchi Bajji twice and Irani Chai once gives two lines, in that order. */
  lemma SampleCartLines()
    ensures Added(Added(Added([], Bajji), Bajji), Chai) == [CartItem(Bajji, 2), CartItem(Chai, 1)]
  {
    var one := Added([], Bajji);
    assert one == [CartItem(Bajji, 1)];
    assert Find(one, Bajji.id) == Some(0);
    var two := Added(one, Bajji);
    assert two == [CartItem(Bajji, 2)];
    assert two[0].item.id != Chai.id by {
      assert Bajji.id[0] != Chai.id[0];
    }
    assert Find(two, Chai.id) == None;
  }

  /** That cart costs 60 x 2 + 25 x 1 = 145 and holds 3 items. */
  lemma SampleCartTotals()
    ensures TotalPrice([CartItem(Bajji, 2), CartItem(Chai, 1)]) == 145
    ensures TotalItems([CartItem(Bajji, 2), CartItem(Chai, 1)]) == 3
  {
    var first, second := CartItem(Bajji, 2), CartItem(Chai, 1);
    assert [first, second][..1] == [first];
    assert [first][..0] == [];
    assert Sum([first], LinePrice) == 120 && Sum([first], Units) == 2;
    assert Sum([first, second], LinePrice) == Sum([first], LinePrice) + LinePrice(second);
    assert Sum([first, second], Units) == Sum([first], Units) + Units(second);
  }

  // ---------------------------------------------------------------------------
  // The component state

  /** The customer screen's state: the cart and which view is showing. */
  class CustomerApp {
    var cart: Cart
    var activeView: CustomerView

    ghost predicate Valid()
      reads this
    {
      WellFormed(cart)
    }

    constructor ()
      ensures Valid() && cart == [] && activeView == Vendors
    {
      cart := [];
      activeView := Vendors;
    }

    method AddToCart(item: MenuItem)
      requires Valid()
      modifies this`cart
      ensures Valid()
      ensures cart == Added(old(cart), item)
    {
      AddPreservesWellFormed(cart, item);
      cart := Added(cart, item);
    }

    method RemoveFromCart(id: string)
      requires Valid()
      modifies this`cart
      ensures Valid()
      ensures cart == Removed(old(cart), id)
    {
      RemovePreservesWellFormed(cart, id);
      cart := Removed(cart, id);
    }

    method GetTotalPrice() returns (total: int)
      ensures total == TotalPrice(cart)
    {
      total := TotalPrice(cart);
    }

    method GetTotalItems() returns (total: int)
      requires Valid()
      ensures total == TotalItems(cart) && total >= |cart|
    {
      total := TotalItems(cart);
    }

    method PlaceOrder() returns (outcome: Outcome)
      requires Valid()
      modifies this`activeView
      ensures Valid() && cart == old(cart)
      ensures outcome == Refused(EmptyCart) ==> activeView == old(activeView)
      ensures (activeView, outcome) == Placement(cart, old(activeView))
    {
      var next := Placement(cart, activeView);
      activeView, outcome := next.0, next.1;
    }
  }
}
