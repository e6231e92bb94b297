/**
 * The session cart: a map from product id to a line holding the product's name
 * and price as they were when the line was first added (a snapshot, not a live
 * join with the products table) and a quantity.
 *
 * The request handlers read the cart out of the session, change their copy and
 * write it back; the pure functions below compute the new cart from the old one
 * and `CartSession` is the session slot they are written into.
 */
module CartStore {
  import opened Wrappers
  import Catalog
  import PhpCast

  datatype CartLine = CartLine(id: nat, name: string, price: int, quantity: int)

  type Cart = map<nat, CartLine>

  /** The invariant the three handlers keep: each line sits under its own product
      id and holds at least one unit. */
  ghost predicate WellFormed(cart: Cart)
  {
    forall id :: id in cart ==> cart[id].id == id && cart[id].quantity >= 1
  }

  // ---------------------------------------------------------------------------
  // Folds over the lines: item count and total
  // ---------------------------------------------------------------------------

  function Quantity(l: CartLine): int { l.quantity }

  /** Price times quantity, in cents. */
  function Subtotal(l: CartLine): int { l.price * l.quantity }

  /** The sum of `f` over the lines, in no particular order. */
  ghost function Sum(cart: Cart, f: CartLine -> int): int
    decreases |cart|
  {
    if cart == map[] then 0
    else
      var id :| id in cart;
      f(cart[id]) + Sum(cart - {id}, f)
  }

  /** The number shown on the cart badge: the sum of the quantities, not the number
      of lines, so with every quantity at least one it is at least the number of lines. */
  ghost function ItemCount(cart: Cart): (n: int)
    ensures WellFormed(cart) ==> n >= |cart|
  {
    SumAtLeast(cart, Quantity, 1);
    Sum(cart, Quantity)
  }

  /** The cart page total; it can only be negative if some line has a negative price. */
  ghost function Total(cart: Cart): (t: int)
    ensures WellFormed(cart) && (forall id :: id in cart ==> cart[id].price >= 0) ==> t >= 0
  {
    SubtotalsAtLeastZero(cart);
    SumAtLeast(cart, Subtotal, 0);
    Sum(cart, Subtotal)
  }

  /** A lower bound on every line's value bounds the fold by that much per line. */
  lemma {:induction false} SumAtLeast(cart: Cart, f: CartLine -> int, lo: int)
    ensures (forall id :: id in cart ==> f(cart[id]) >= lo) ==> Sum(cart, f) >= lo * |cart|
    decreases |cart|
  {
    if cart != map[] && forall id :: id in cart ==> f(cart[id]) >= lo {
      var id :| id in cart;
      SumRemove(cart, f, id);
      SumAtLeast(cart - {id}, f, lo);
      assert |cart - {id}| == |cart| - 1;
      assert lo * |cart| == lo + lo * (|cart| - 1);
    }
  }

  lemma SubtotalsAtLeastZero(cart: Cart)
    ensures WellFormed(cart) && (forall id :: id in cart ==> cart[id].price >= 0) ==>
      forall id :: id in cart ==> Subtotal(cart[id]) >= 0
  {
  }

  /** The fold does not depend on which line is taken first. */
  lemma {:induction false} SumRemove(cart: Cart, f: CartLine -> int, id: nat)
    requires id in cart
    ensures Sum(cart, f) == f(cart[id]) + Sum(cart - {id}, f)
    decreases |cart|
  {
    var j :| j in cart && Sum(cart, f) == f(cart[j]) + Sum(cart - {j}, f);
    if j != id {
      var both := cart - {j} - {id};
      SumRemove(cart - {j}, f, id);
      SumRemove(cart - {id}, f, j);
      assert cart - {id} - {j} == both;
    }
  }

  /** Replacing or inserting one line changes the fold by that line alone. */
  lemma SumUpdate(cart: Cart, f: CartLine -> int, id: nat, line: CartLine)
    ensures Sum(cart[id := line], f) == Sum(cart, f) - (if id in cart then f(cart[id]) else 0) + f(line)
  {
    SumRemove(cart[id := line], f, id);
    assert cart[id := line] - {id} == cart - {id};
    if id in cart {
      SumRemove(cart, f, id);
    } else {
      assert cart - {id} == cart;
    }
  }

  /** Adds up `f` over the lines one at a time, like the loop of the cart page
      (and the `array_sum` behind the badge). */
  method SumOverLines(cart: Cart, f: CartLine -> int) returns (s: int)
    ensures s == Sum(cart, f)
  {
    s := 0;
    var rest := cart;
    while rest != map[]
      invariant s + Sum(rest, f) == Sum(cart, f)
      decreases |rest|
    {
      var id :| id in rest;
      SumRemove(rest, f, id);
      s := s + f(rest[id]);
      rest := rest - {id};
    }
  }

  // ---------------------------------------------------------------------------
  // The three cart transitions on the cart value
  // ---------------------------------------------------------------------------

  /** Add one unit of product `p` under `id`: a known line gets one more unit, an
      unknown id gets a new line with quantity 1 and the product's current name and price. */
  function AddLine(cart: Cart, id: nat, p: Catalog.Product): (r: Cart)
    ensures r.Keys == cart.Keys + {id}
    ensures forall k :: k in cart && k != id ==> r[k] == cart[k]
    ensures id in cart ==> r[id] == cart[id].(quantity := cart[id].quantity + 1)
    ensures id !in cart ==> r[id] == CartLine(id, p.name, p.price, 1)
    ensures WellFormed(cart) ==> WellFormed(r)
  {
    if id in cart then cart[id := cart[id].(quantity := cart[id].quantity + 1)]
    else cart[id := CartLine(id, p.name, p.price, 1)]
  }

  /** Set the quantity of a line absolutely; zero or less removes the line. */
  function SetLineQuantity(cart: Cart, id: nat, quantity: int): (r: Cart)
    requires id in cart
    ensures quantity > 0 ==> r.Keys == cart.Keys && r[id] == cart[id].(quantity := quantity)
    ensures quantity <= 0 ==> r.Keys == cart.Keys - {id}
    ensures forall k :: k in cart && k != id ==> k in r && r[k] == cart[k]
    ensures WellFormed(cart) ==> WellFormed(r)
  {
    if quantity > 0 then cart[id := cart[id].(quantity := quantity)] else cart - {id}
  }

  /** Adding one unit raises the item count by exactly one, and the total by the
      line's price: the snapshot price if the line exists, the current one otherwise. */
  lemma AddLineSums(cart: Cart, id: nat, p: Catalog.Product)
    ensures ItemCount(AddLine(cart, id, p)) == ItemCount(cart) + 1
    ensures Total(AddLine(cart, id, p)) == Total(cart) + (if id in cart then cart[id].price else p.price)
  {
    var r := AddLine(cart, id, p);
    assert r == cart[id := r[id]];
    SumUpdate(cart, Quantity, id, r[id]);
    SumUpdate(cart, Subtotal, id, r[id]);
    if id in cart {
      OneMoreUnit(cart[id]);
    }
  }

  lemma OneMoreUnit(l: CartLine)
    ensures Subtotal(l.(quantity := l.quantity + 1)) == Subtotal(l) + l.price
  {
    assert l.price * (l.quantity + 1) == l.price * l.quantity + l.price;
  }

  /** Adding the same product twice to a cart without it yields one line with two units. */
  lemma AddTwice(cart: Cart, id: nat, p: Catalog.Product)
    requires id !in cart
    ensures var r := AddLine(AddLine(cart, id, p), id, p);
      && |r| == |cart| + 1
      && r[id] == CartLine(id, p.name, p.price, 2)
      && ItemCount(r) == ItemCount(cart) + 2
  {
    var once := AddLine(cart, id, p);
    AddLineSums(cart, id, p);
    AddLineSums(once, id, p);
    assert once.Keys == cart.Keys + {id};
  }

  /** Setting a quantity replaces the line's contribution to the count and total. */
  lemma SetLineQuantitySums(cart: Cart, id: nat, quantity: int)
    requires id in cart
    ensures var n := if quantity > 0 then quantity else 0;
      && ItemCount(SetLineQuantity(cart, id, quantity)) == ItemCount(cart) - cart[id].quantity + n
      && Total(SetLineQuantity(cart, id, quantity)) == Total(cart) - Subtotal(cart[id]) + cart[id].price * n
  {
    var r := SetLineQuantity(cart, id, quantity);
    if quantity > 0 {
      assert r == cart[id := cart[id].(quantity := quantity)];
      SumUpdate(cart, Quantity, id, r[id]);
      SumUpdate(cart, Subtotal, id, r[id]);
    } else {
      SumRemove(cart, Quantity, id);
      SumRemove(cart, Subtotal, id);
    }
  }

  /** Removing a line takes away exactly its units and its subtotal. */
  lemma RemoveLineSums(cart: Cart, id: nat)
    requires id in cart
    ensures ItemCount(cart - {id}) == ItemCount(cart) - cart[id].quantity
    ensures Total(cart - {id}) == Total(cart) - Subtotal(cart[id])
  {
    SumRemove(cart, Quantity, id);
    SumRemove(cart, Subtotal, id);
  }

  /** An empty cart counts zero items and totals zero. */
  lemma EmptySums()
    ensures ItemCount(map[]) == 0 && Total(map[]) == 0
  {
  }

  // ---------------------------------------------------------------------------
  // The session slot and the three request handlers
  // ---------------------------------------------------------------------------

  /** The JSON the handlers answer with: success with the new cart (and, after an
      add, the item count), or a 404 error. */
  datatype CartResponse =
    | Ok(message: string, cartCount: Option<int>, cart: Cart)
    | NotFound(message: string)

  class CartSession {
    /** The session's `cart` entry; a session without one reads as the empty cart. */
    var cart: Cart

    ghost predicate Valid()
      reads this
    {
      WellFormed(cart)
    }

    constructor ()
      ensures Valid() && cart == map[]
    {
      cart := map[];
    }

    /** Adds one unit of an available product and answers with the item count. */
    method AddToCart(products: Catalog.Table, id: nat) returns (r: CartResponse)
      requires Valid()
      modifies this
      ensures Valid()
      ensures Catalog.FindAvailable(products, id).None? ==>
        r == NotFound("Product unavailable.") && cart == old(cart)
      ensures Catalog.FindAvailable(products, id).Some? ==>
        && cart == AddLine(old(cart), id, products[id])
        && r == Ok("Product added to cart", Some(ItemCount(cart)), cart)
    {
      var product := Catalog.FindAvailable(products, id);
      if product.None? {
        return NotFound("Product unavailable.");
      }
      var c := cart;
      if id in c {
        c := c[id := c[id].(quantity := c[id].quantity + 1)];
      } else {
        c := c[id := CartLine(id, product.value.name, product.value.price, 1)];
      }
      cart := c;
      var count := SumOverLines(c, Quantity);
      r := Ok("Product added to cart", Some(count), c);
    }

    /** Sets the quantity of a line from the posted text, cast with PHP's `(int)`. */
    method UpdateCart(id: nat, quantity: string) returns (r: CartResponse)
      requires Valid()
      modifies this
      ensures Valid()
      ensures id !in old(cart) ==> r == NotFound("Product not in cart") && cart == old(cart)
      ensures id in old(cart) ==>
        && cart == SetLineQuantity(old(cart), id, PhpCast.IntCast(quantity))
        && r == Ok("Cart updated", None, cart)
    {
      var q := PhpCast.IntCast(quantity);
      var c := cart;
      if id in c {
        if q > 0 {
          c := c[id := c[id].(quantity := q)];
        } else {
          c := c - {id};
        }
        cart := c;
        return Ok("Cart updated", None, c);
      }
      r := NotFound("Product not in cart");
    }

    /** Deletes a line. */
    method RemoveCart(id: nat) returns (r: CartResponse)
      requires Valid()
      modifies this
      ensures Valid()
      ensures id !in old(cart) ==> r == NotFound("Product not in cart") && cart == old(cart)
      ensures id in old(cart) ==> cart == old(cart) - {id} && r == Ok("Product removed", None, cart)
    {
      var c := cart;
      if id in c {
        c := c - {id};
        cart := c;
        return Ok("Product removed", None, c);
      }
      r := NotFound("Product not in cart");
    }
  }
}
