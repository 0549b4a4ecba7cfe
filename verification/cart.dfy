/** The browser-side shopping cart: a sequence of lines, each a snapshot of a
    catalogue entry plus a quantity, changed by the three handlers behind the
    store page's buttons. Each handler is a pure function from the catalogue
    and the cart to the new cart and the notice the page shows. */
module Cart {
  import opened Common
  import opened Seqs
  import opened Store
  import Catalog

  /** `{ ...medicine, quantity }`: the medicine as it was when added, and a count. */
  datatype CartItem = CartItem(medicine: Medicine, quantity: int) {
    function Id(): int {
      medicine.id
    }
  }

  /** What the page tells the user after "Add to Cart". */
  datatype AddNotice = Added | UnknownMedicine | OutOfStock | StockLimit

  datatype AddOutcome = AddOutcome(cart: seq<CartItem>, notice: AddNotice)

  /** What happens after a "+" or "-" button. `Ignored` changes nothing and
      persists nothing; `Clamped` is the "Maximum stock reached!" alert. */
  datatype UpdateNotice = Ignored | Removed | Clamped | Changed

  datatype UpdateOutcome = UpdateOutcome(cart: seq<CartItem>, notice: UpdateNotice)

  ghost predicate HasItem(cart: seq<CartItem>, id: int) {
    exists i :: 0 <= i < |cart| && cart[i].Id() == id
  }

  /** The cart holds at most one line per medicine id. */
  ghost predicate UniqueItems(cart: seq<CartItem>) {
    forall i, j :: 0 <= i < j < |cart| ==> cart[i].Id() != cart[j].Id()
  }

  /** `cart.find(item => item.id === id)`, as an index. */
  function IndexOfItem(cart: seq<CartItem>, id: int): (r: Option<nat>)
    ensures r.None? <==> !HasItem(cart, id)
    ensures r.Some? ==> r.value < |cart| && cart[r.value].Id() == id
    ensures r.Some? ==> forall i :: 0 <= i < r.value ==> cart[i].Id() != id
  {
    FirstWhere(cart, (item: CartItem) => item.Id() == id)
  }

  /** Line `j` now has quantity `q`; every other line, and the order, is as before. */
  ghost predicate QuantityReplaced(before: seq<CartItem>, after: seq<CartItem>, j: int, q: int) {
    && 0 <= j < |before|
    && |after| == |before|
    && after[j] == before[j].(quantity := q)
    && forall i :: 0 <= i < |before| && i != j ==> after[i] == before[i]
  }

  /** The line's quantity is at least one and, when its medicine is still in
      the catalogue, no more than that medicine's current stock. */
  ghost predicate ItemWithinStock(meds: seq<Medicine>, item: CartItem) {
    && 1 <= item.quantity
    && (MedicineById(meds, item.Id()).Some? ==> item.quantity <= MedicineById(meds, item.Id()).value.stock)
  }

  ghost predicate WithinStock(meds: seq<Medicine>, cart: seq<CartItem>) {
    forall item | item in cart :: ItemWithinStock(meds, item)
  }

  /** The number shown on the cart badge: the sum of all quantities. With
      every line holding at least one unit, it is at least the number of lines. */
  function TotalQuantity(cart: seq<CartItem>): (r: int)
    ensures |cart| == 0 ==> r == 0
    ensures (forall i :: 0 <= i < |cart| ==> cart[i].quantity >= 1) ==> r >= |cart|
  {
    if |cart| == 0 then 0 else TotalQuantity(cart[..|cart| - 1]) + cart[|cart| - 1].quantity
  }

  /** The cart total in cents: the sum of snapshot price times quantity. */
  function TotalPrice(cart: seq<CartItem>): (r: int)
    ensures |cart| == 0 ==> r == 0
  {
    if |cart| == 0 then 0
    else TotalPrice(cart[..|cart| - 1]) + cart[|cart| - 1].medicine.price * cart[|cart| - 1].quantity
  }

  /** The total is never negative when no price or quantity is. */
  lemma {:induction false} TotalPriceNonNegative(cart: seq<CartItem>)
    requires forall i :: 0 <= i < |cart| ==> cart[i].medicine.price >= 0 && cart[i].quantity >= 0
    ensures TotalPrice(cart) >= 0
    decreases |cart|
  {
    if |cart| > 0 {
      var n := |cart| - 1;
      assert forall i :: 0 <= i < n ==> cart[..n][i] == cart[i];
      TotalPriceNonNegative(cart[..n]);
      assert cart[n].medicine.price * cart[n].quantity >= 0;
    }
  }

  /** "Add to Cart": an unknown id, an entry whose stock is exactly 0, or a line
      already at the entry's stock leaves the cart as it is; otherwise the
      existing line gains one unit or a new line of one unit goes at the end. */
  function AddToCart(meds: seq<Medicine>, cart: seq<CartItem>, id: int): (r: AddOutcome)
    ensures r.notice == UnknownMedicine <==> !HasMedicine(meds, id)
    ensures r.notice == OutOfStock <==> HasMedicine(meds, id) && MedicineById(meds, id).value.stock == 0
    ensures r.notice == StockLimit <==>
              && HasMedicine(meds, id)
              && MedicineById(meds, id).value.stock != 0
              && HasItem(cart, id)
              && cart[IndexOfItem(cart, id).value].quantity >= MedicineById(meds, id).value.stock
    ensures r.notice == Added <==> r.cart != cart
    ensures r.notice == Added && HasItem(cart, id) ==>
              var j := IndexOfItem(cart, id).value;
              QuantityReplaced(cart, r.cart, j, cart[j].quantity + 1)
    ensures r.notice == Added && !HasItem(cart, id) ==>
              && |r.cart| == |cart| + 1
              && r.cart[..|cart|] == cart
              && r.cart[|cart|] == CartItem(MedicineById(meds, id).value, 1)
    ensures UniqueItems(cart) ==> UniqueItems(r.cart)
  {
    match MedicineById(meds, id)
    case None => AddOutcome(cart, UnknownMedicine)
    case Some(med) =>
      if med.stock == 0 then AddOutcome(cart, OutOfStock)
      else
        match IndexOfItem(cart, id)
        case Some(j) =>
          if cart[j].quantity >= med.stock then AddOutcome(cart, StockLimit)
          else
            var after := cart[j := cart[j].(quantity := cart[j].quantity + 1)];
            assert after[j] != cart[j];
            AddOutcome(after, Added)
        case None =>
          var after := cart + [CartItem(med, 1)];
          assert |after| != |cart|;
          AddOutcome(after, Added)
  }

  /** "Remove": every line with the id goes; the other lines stay, in order. */
  function RemoveFromCart(cart: seq<CartItem>, id: int): (r: seq<CartItem>)
    ensures !HasItem(r, id)
    ensures forall item | item in cart :: item in r <==> item.Id() != id
    ensures forall item | item in r :: item in cart
    ensures IsSubsequence(r, cart)
  {
    var r := Filter(cart, (item: CartItem) => item.Id() != id);
    assert forall i | 0 <= i < |r| :: r[i] in r;
    r
  }

  /** Removal keeps every copy of a line with another id and no copy of a line with this id. */
  lemma RemoveKeepsMultiplicity(cart: seq<CartItem>, id: int, item: CartItem)
    ensures multiset(RemoveFromCart(cart, id))[item] == if item.Id() != id then multiset(cart)[item] else 0
  {
    FilterMultiplicity(cart, (x: CartItem) => x.Id() != id, item);
  }

  /** "+" / "-": a line or entry that is not found changes nothing; a quantity
      that falls to zero or below removes the line; one above the entry's
      stock is cut down to that stock. */
  function UpdateCartQuantity(meds: seq<Medicine>, cart: seq<CartItem>, id: int, change: int): (r: UpdateOutcome)
    ensures r.notice == Ignored <==> !HasItem(cart, id) || !HasMedicine(meds, id)
    ensures r.notice == Ignored ==> r.cart == cart
    ensures r.notice == Removed <==>
              && HasItem(cart, id) && HasMedicine(meds, id)
              && cart[IndexOfItem(cart, id).value].quantity + change <= 0
    ensures r.notice == Removed ==> r.cart == RemoveFromCart(cart, id)
    ensures r.notice == Clamped ==>
              var j := IndexOfItem(cart, id).value;
              var stock := MedicineById(meds, id).value.stock;
              && stock < cart[j].quantity + change
              && QuantityReplaced(cart, r.cart, j, stock)
    ensures r.notice == Changed ==>
              var j := IndexOfItem(cart, id).value;
              && 1 <= cart[j].quantity + change <= MedicineById(meds, id).value.stock
              && QuantityReplaced(cart, r.cart, j, cart[j].quantity + change)
  {
    match IndexOfItem(cart, id)
    case None => UpdateOutcome(cart, Ignored)
    case Some(j) =>
      match MedicineById(meds, id)
      case None => UpdateOutcome(cart, Ignored)
      case Some(med) =>
        var q := cart[j].quantity + change;
        if q <= 0 then UpdateOutcome(RemoveFromCart(cart, id), Removed)
        else if q > med.stock then UpdateOutcome(cart[j := cart[j].(quantity := med.stock)], Clamped)
        else UpdateOutcome(cart[j := cart[j].(quantity := q)], Changed)
  }

  /** The `items` of the checkout payload: id, snapshot name and price, quantity. */
  function CheckoutLines(cart: seq<CartItem>): (r: seq<LineItem>)
    ensures |r| == |cart|
    ensures forall i :: 0 <= i < |cart| ==> r[i].id == cart[i].Id() && r[i].quantity == cart[i].quantity
    ensures forall i :: 0 <= i < |cart| ==> r[i].name == cart[i].medicine.name && r[i].price == cart[i].medicine.price
  {
    seq(|cart|, i requires 0 <= i < |cart| =>
      LineItem(cart[i].Id(), cart[i].medicine.name, cart[i].medicine.price, cart[i].quantity))
  }

  /** The sum of price times quantity over order lines. */
  function LinesTotal(lines: seq<LineItem>): int {
    if |lines| == 0 then 0
    else LinesTotal(lines[..|lines| - 1]) + lines[|lines| - 1].price * lines[|lines| - 1].quantity
  }

  /** The checkout payload is consistent: its `totalAmount` (the cart total)
      is what its `items` add up to. */
  lemma {:induction false} CheckoutTotalMatches(cart: seq<CartItem>)
    ensures LinesTotal(CheckoutLines(cart)) == TotalPrice(cart)
    decreases |cart|
  {
    if |cart| > 0 {
      var n := |cart| - 1;
      assert CheckoutLines(cart)[..n] == CheckoutLines(cart[..n]);
      CheckoutTotalMatches(cart[..n]);
    }
  }

  /** Changing one line's quantity moves the badge count by the difference. */
  lemma {:induction false} TotalQuantityReplace(cart: seq<CartItem>, j: nat, q: int)
    requires j < |cart|
    ensures TotalQuantity(cart[j := cart[j].(quantity := q)]) == TotalQuantity(cart) - cart[j].quantity + q
    decreases |cart|
  {
    var after := cart[j := cart[j].(quantity := q)];
    var n := |cart| - 1;
    if j < n {
      assert after[..n] == cart[..n][j := cart[j].(quantity := q)];
      TotalQuantityReplace(cart[..n], j, q);
    } else {
      assert after[..n] == cart[..n];
    }
  }

  /** A successful "Add to Cart" raises the badge count by exactly one. */
  lemma AddCountsOne(meds: seq<Medicine>, cart: seq<CartItem>, id: int)
    requires AddToCart(meds, cart, id).notice == Added
    ensures TotalQuantity(AddToCart(meds, cart, id).cart) == TotalQuantity(cart) + 1
  {
    var after := AddToCart(meds, cart, id).cart;
    if HasItem(cart, id) {
      var j := IndexOfItem(cart, id).value;
      assert after == cart[j := cart[j].(quantity := cart[j].quantity + 1)];
      TotalQuantityReplace(cart, j, cart[j].quantity + 1);
    } else {
      assert after[..|after| - 1] == cart;
    }
  }

  /** Changing one line's quantity moves the total by that line's price times the difference. */
  lemma {:induction false} TotalPriceReplace(cart: seq<CartItem>, j: nat, q: int)
    requires j < |cart|
    ensures TotalPrice(cart[j := cart[j].(quantity := q)])
         == TotalPrice(cart) + cart[j].medicine.price * (q - cart[j].quantity)
    decreases |cart|
  {
    var after := cart[j := cart[j].(quantity := q)];
    var n := |cart| - 1;
    var price := cart[j].medicine.price;
    assert TotalPrice(after) == TotalPrice(after[..n]) + after[n].medicine.price * after[n].quantity;
    assert TotalPrice(cart) == TotalPrice(cart[..n]) + cart[n].medicine.price * cart[n].quantity;
    if j < n {
      assert after[..n] == cart[..n][j := cart[j].(quantity := q)];
      assert after[n] == cart[n];
      TotalPriceReplace(cart[..n], j, q);
    } else {
      assert after[..n] == cart[..n];
      assert price * (q - cart[j].quantity) == price * q - price * cart[j].quantity;
    }
  }

  /** The total after a quantity replacement, stated on the predicate. */
  lemma TotalPriceOfReplaced(before: seq<CartItem>, after: seq<CartItem>, j: nat, q: int)
    requires QuantityReplaced(before, after, j, q)
    ensures TotalPrice(after) == TotalPrice(before) + before[j].medicine.price * (q - before[j].quantity)
  {
    assert after == before[j := before[j].(quantity := q)];
    TotalPriceReplace(before, j, q);
  }

  /** A successful "Add to Cart" raises the total by one unit's price: the
      price copied into the line when it was first added, or the catalogue
      price for a new line. */
  lemma AddChargesOneUnit(meds: seq<Medicine>, cart: seq<CartItem>, id: int)
    requires AddToCart(meds, cart, id).notice == Added
    ensures TotalPrice(AddToCart(meds, cart, id).cart) == TotalPrice(cart) +
              if HasItem(cart, id) then cart[IndexOfItem(cart, id).value].medicine.price
              else MedicineById(meds, id).value.price
  {
    var after := AddToCart(meds, cart, id).cart;
    if HasItem(cart, id) {
      var j := IndexOfItem(cart, id).value;
      TotalPriceOfReplaced(cart, after, j, cart[j].quantity + 1);
    } else {
      assert after[..|after| - 1] == cart;
    }
  }

  /** Adding keeps every line within the stock bounds, provided no catalogue
      entry has negative stock. */
  lemma AddKeepsWithinStock(meds: seq<Medicine>, cart: seq<CartItem>, id: int)
    requires StocksAtLeast(meds, 0)
    requires WithinStock(meds, cart)
    ensures WithinStock(meds, AddToCart(meds, cart, id).cart)
  {
    var r := AddToCart(meds, cart, id);
    if r.notice == Added {
      var med := MedicineById(meds, id).value;
      if HasItem(cart, id) {
        var j := IndexOfItem(cart, id).value;
        forall item | item in r.cart
          ensures ItemWithinStock(meds, item)
        {
          var i :| 0 <= i < |r.cart| && r.cart[i] == item;
          if i != j {
            assert item == cart[i];
          } else {
            assert cart[j] in cart;
          }
        }
      } else {
        forall item | item in r.cart
          ensures ItemWithinStock(meds, item)
        {
          var i :| 0 <= i < |r.cart| && r.cart[i] == item;
          if i < |cart| {
            assert item == r.cart[..|cart|][i];
          }
        }
      }
    }
  }

  /** Removal keeps at most one line per id. */
  lemma {:induction false} RemoveKeepsUnique(cart: seq<CartItem>, id: int)
    requires UniqueItems(cart)
    ensures UniqueItems(RemoveFromCart(cart, id))
    decreases |cart|
  {
    if |cart| > 0 {
      RemoveKeepsUnique(cart[1..], id);
      var rest := RemoveFromCart(cart[1..], id);
      assert forall item | item in rest :: item in cart[1..];
      if cart[0].Id() != id {
        assert RemoveFromCart(cart, id) == [cart[0]] + rest;
        forall k | 0 <= k < |rest|
          ensures rest[k].Id() != cart[0].Id()
        {
          assert rest[k] in cart[1..];
        }
      } else {
        assert RemoveFromCart(cart, id) == rest;
      }
    }
  }

  /** The "+" and "-" buttons keep at most one line per id. */
  lemma UpdateKeepsUnique(meds: seq<Medicine>, cart: seq<CartItem>, id: int, change: int)
    requires UniqueItems(cart)
    ensures UniqueItems(UpdateCartQuantity(meds, cart, id, change).cart)
  {
    RemoveKeepsUnique(cart, id);
  }

  /** With unique lines, removing a present id drops exactly one line. */
  lemma {:induction false} RemoveDropsOneLine(cart: seq<CartItem>, id: int)
    requires UniqueItems(cart)
    ensures |RemoveFromCart(cart, id)| == if HasItem(cart, id) then |cart| - 1 else |cart|
    decreases |cart|
  {
    if |cart| > 0 {
      RemoveDropsOneLine(cart[1..], id);
      if cart[0].Id() == id {
        assert forall k | 0 <= k < |cart[1..]| :: cart[1..][k].Id() != id;
        assert RemoveFromCart(cart, id) == RemoveFromCart(cart[1..], id);
      } else {
        assert RemoveFromCart(cart, id) == [cart[0]] + RemoveFromCart(cart[1..], id);
        assert HasItem(cart, id) <==> HasItem(cart[1..], id) by {
          if HasItem(cart, id) {
            var i :| 0 <= i < |cart| && cart[i].Id() == id;
            assert cart[1..][i - 1].Id() == id;
          }
          if HasItem(cart[1..], id) {
            var i :| 0 <= i < |cart[1..]| && cart[1..][i].Id() == id;
            assert cart[i + 1].Id() == id;
          }
        }
      }
    }
  }

  /** The "+" and "-" buttons keep every line within the stock bounds, provided
      every catalogue entry has at least one unit in stock. */
  lemma UpdateKeepsWithinStock(meds: seq<Medicine>, cart: seq<CartItem>, id: int, change: int)
    requires StocksAtLeast(meds, 1)
    requires WithinStock(meds, cart)
    ensures WithinStock(meds, UpdateCartQuantity(meds, cart, id, change).cart)
  {
  }

  /** Without stock at least one, the clamp can leave a line at quantity 0: a
      line added while the entry had one unit, after the entry's stock dropped
      to 0, goes to 0 on "+" and stays in the cart. */
  lemma ClampCanLeaveZero()
    ensures
      var med := Medicine(3, "Aspirin 100mg", 1299, "Pain Relief", 0, Catalog.Pill);
      var r := UpdateCartQuantity([med], [CartItem(med.(stock := 1), 1)], 3, 1);
      r.notice == Clamped && r.cart == [CartItem(med.(stock := 1), 0)]
  {
  }
}
