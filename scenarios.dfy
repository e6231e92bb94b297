/**
 * Clients of the products table and the cart session: request sequences whose
 * outcome follows from the handlers' contracts alone.
 */
module Scenarios {
  import opened Wrappers
  import opened Catalog
  import opened CartStore
  import PhpCast

  const Laptop := ProductForm(Given("Laptop"), Given(5500000), Given("active"))

  lemma LaptopFormValid()
    ensures Validate(Laptop) == Success(ProductData("Laptop", 5500000, Some(Active)))
  {
    assert !IsTrimmed("Laptop"[0]);
    assert ParseStatus("active") == Some(Active);
  }

  lemma CastThree()
    ensures PhpCast.IntCast("3") == 3
  {
    PhpCast.IntCastShow(3);
    assert PhpCast.Show(3) == "3";
  }

  /** A cart of one line counts that line's units and totals its subtotal. */
  lemma SingleLineSums(line: CartLine)
    ensures ItemCount(map[line.id := line]) == line.quantity
    ensures Total(map[line.id := line]) == Subtotal(line)
  {
    EmptySums();
    SumUpdate(map[], Quantity, line.id, line);
    SumUpdate(map[], Subtotal, line.id, line);
  }

  lemma SetSingleLine(line: CartLine, quantity: int)
    requires quantity > 0
    ensures SetLineQuantity(map[line.id := line], line.id, quantity) == map[line.id := line.(quantity := quantity)]
  {
  }

  /** Create "Laptop" at 55000.00, add it to an empty cart, set the quantity to "3",
      then remove it: the badge reads 1 and the totals read 55000.00, 165000.00 and 0. */
  method LaptopJourney() returns (count: Option<int>, added: int, tripled: int, emptied: int)
    ensures count == Some(1)
    ensures added == 5500000 && tripled == 16500000 && emptied == 0
  {
    var session;
    session, count, added := AddLaptop();
    CastThree();
    tripled, emptied := SetThenRemove(session, CartLine(1, "Laptop", 5500000, 1), "3");
  }

  /** The first half: the administrator creates the laptop and a visitor adds it. */
  method AddLaptop() returns (session: CartSession, count: Option<int>, added: int)
    ensures fresh(session) && session.Valid()
    ensures session.cart == map[1 := CartLine(1, "Laptop", 5500000, 1)]
    ensures count == Some(1) && added == 5500000
  {
    var store := new ProductStore();
    LaptopFormValid();
    var created := store.Store(Laptop, None);
    assert Available(store.rows[1]);

    session := new CartSession();
    var r := session.AddToCart(store.rows, 1);
    var one := CartLine(1, "Laptop", 5500000, 1);
    assert session.cart == map[1 := one];
    SingleLineSums(one);
    count, added := CountAndTotal(session);
  }

  /** The second half: the visitor types a positive quantity into the box of the
      only line, then removes it. */
  method SetThenRemove(session: CartSession, line: CartLine, quantity: string) returns (changed: int, emptied: int)
    requires session.Valid() && session.cart == map[line.id := line]
    requires PhpCast.IntCast(quantity) > 0
    modifies session
    ensures changed == line.price * PhpCast.IntCast(quantity) && emptied == 0
  {
    var q := PhpCast.IntCast(quantity);
    var u := session.UpdateCart(line.id, quantity);
    SetSingleLine(line, q);
    SingleLineSums(line.(quantity := q));
    var c;
    c, changed := CountAndTotal(session);

    var d := session.RemoveCart(line.id);
    assert session.cart == map[];
    EmptySums();
    c, emptied := CountAndTotal(session);
  }

  /** What the badge and the cart page show for the session's cart. */
  method CountAndTotal(session: CartSession) returns (count: Option<int>, total: int)
    ensures count == Some(ItemCount(session.cart)) && total == Total(session.cart)
  {
    var n := SumOverLines(session.cart, Quantity);
    count := Some(n);
    total := SumOverLines(session.cart, Subtotal);
  }

  /** Moving a product to the trash and restoring it leaves it editable but still
      off the public catalog and out of reach of the cart: its status stays deleted. */
  method DestroyThenRestore(store: ProductStore, id: nat) returns (destroyed: Redirect, restored: Redirect)
    requires store.Valid() && Find(store.rows, id).Some?
    modifies store
    ensures store.Valid()
    ensures destroyed == WithSuccess("Product moved to trash") && restored == WithSuccess("Product restored")
    ensures store.rows.Keys == old(store.rows.Keys)
    ensures store.rows[id] == old(store.rows[id]).(status := Deleted)
    ensures Find(store.rows, id).Some? && id in AdminListing(store.rows)
    ensures id !in ActiveListing(store.rows) && FindAvailable(store.rows, id).None?
  {
    destroyed := store.Destroy(id);
    restored := store.Restore(id);
  }

  /** Destroying a product twice: the second attempt no longer finds it and changes nothing. */
  method DestroyTwice(store: ProductStore, id: nat) returns (first: Redirect, second: Redirect)
    requires store.Valid() && Find(store.rows, id).Some?
    modifies store
    ensures store.Valid()
    ensures first == WithSuccess("Product moved to trash") && second == WithError(NotFoundMessage)
    ensures store.rows == old(store.rows)[id := old(store.rows[id]).(status := Deleted, trashed := true)]
  {
    first := store.Destroy(id);
    second := store.Destroy(id);
  }

  /** After a permanent delete every later action on the id reports it missing, and
      the counter is already past the id, so no later create can be given it. */
  method ForceDeleteIsFinal(store: ProductStore, id: nat, form: ProductForm, auth: Option<nat>)
    returns (restored: Redirect, updated: Redirect, destroyed: Redirect)
    requires store.Valid() && id in store.rows
    modifies store
    ensures store.Valid()
    ensures restored == WithError("Product not found or not trashed")
    ensures updated == WithError(NotFoundMessage) && destroyed == WithError(NotFoundMessage)
    ensures id !in AdminListing(store.rows) && store.rows == old(store.rows) - {id}
    ensures id < store.nextId
  {
    var gone := store.ForceDelete(id);
    restored := store.Restore(id);
    updated := store.Update(id, form, auth);
    destroyed := store.Destroy(id);
  }

  /** A permanently deleted id is never handed out again: creates after the delete,
      valid or not, leave it out of the table and the counter past it. */
  method CreateAfterForceDelete(store: ProductStore, id: nat, first: ProductForm, second: ProductForm, auth: Option<nat>)
    returns (gone: Redirect, created: Redirect, createdAgain: Redirect)
    requires store.Valid() && id in store.rows
    modifies store
    ensures store.Valid()
    ensures gone == WithSuccess("Product permanently deleted")
    ensures id !in store.rows && id < store.nextId
    ensures store.rows.Keys <= old(store.rows.Keys) - {id} + {old(store.nextId), old(store.nextId) + 1}
  {
    gone := store.ForceDelete(id);
    created := store.Store(first, auth);
    createdAgain := store.Store(second, auth);
  }

  /** A cart line keeps the name and price of the moment it was added: editing the
      product afterwards changes neither the line nor the cart total. */
  method PriceChangeKeepsCart(store: ProductStore, session: CartSession, id: nat, form: ProductForm)
    returns (added: CartResponse, updated: Redirect)
    requires store.Valid() && session.Valid()
    requires id !in session.cart && FindAvailable(store.rows, id).Some? && Validate(form).Success?
    modifies store, session
    ensures id in session.cart && id in store.rows
    ensures session.cart[id] == CartLine(id, old(store.rows[id]).name, old(store.rows[id]).price, 1)
    ensures store.rows[id].price == form.price.value && store.rows[id].name == form.name.value
    ensures Total(session.cart) == Total(old(session.cart)) + old(store.rows[id]).price
  {
    added := session.AddToCart(store.rows, id);
    AddLineSums(old(session.cart), id, store.rows[id]);
    updated := store.Update(id, form, None);
  }
}
