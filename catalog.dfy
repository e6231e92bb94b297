/**
 * The products table and the administrative product actions of the storefront:
 * create, update, soft delete ("move to trash"), restore and permanent delete,
 * plus the two listings and the lookups the cart relies on.
 *
 * A product carries two deletion signals that the source keeps apart: the
 * `status` column (active, inactive, deleted) and the soft-delete stamp, here the
 * boolean `trashed`. Every query except the explicit "with trashed" ones skips
 * trashed rows. Prices are integer cents (the column is a two-place decimal).
 */
module Catalog {
  import opened Wrappers

  datatype Status = Active | Inactive | Deleted

  /** The spelling of a status in requests and in the database enum. */
  function StatusName(s: Status): string
  {
    match s
    case Active => "active"
    case Inactive => "inactive"
    case Deleted => "deleted"
  }

  /** The `in:active,inactive,deleted` rule: a status is accepted only by its exact name. */
  function ParseStatus(s: string): (r: Option<Status>)
    ensures forall st :: r == Some(st) <==> s == StatusName(st)
  {
    if s == "active" then Some(Active)
    else if s == "inactive" then Some(Inactive)
    else if s == "deleted" then Some(Deleted)
    else None
  }

  datatype Product = Product(
    name: string,
    price: int,               // cents
    image: Option<string>,
    status: Status,
    createdBy: Option<nat>,
    updatedBy: Option<nat>,
    trashed: bool             // the soft-delete stamp is set
  )

  /** Rows of the products table, keyed by their auto-increment id. */
  type Table = map<nat, Product>

  /** The acting user recorded when nobody is signed in. */
  const FallbackActor: nat := 1

  /** The user recorded as creator or updater: the signed-in user, or the fallback
      when nobody is signed in. */
  function ActingUser(auth: Option<nat>): (u: nat)
    ensures auth.Some? ==> u == auth.value
    ensures auth.None? ==> u == FallbackActor
  {
    if auth.Some? then auth.value else FallbackActor
  }

  // ---------------------------------------------------------------------------
  // Lookups and listings
  // ---------------------------------------------------------------------------

  /** `Product::find`: the default soft-delete scope hides trashed rows. */
  function Find(t: Table, id: nat): (r: Option<Product>)
    ensures r.Some? <==> id in t && !t[id].trashed
    ensures r.Some? ==> r.value == t[id]
  {
    if id in t && !t[id].trashed then Some(t[id]) else None
  }

  /** `Product::withTrashed()->where('id', id)->first()`: sees every row. */
  function FindWithTrashed(t: Table, id: nat): (r: Option<Product>)
    ensures r.Some? <==> id in t
    ensures r.Some? ==> r.value == t[id]
  {
    if id in t then Some(t[id]) else None
  }

  /** A product the shop sells: status active and not in the trash. */
  predicate Available(p: Product)
  {
    p.status == Active && !p.trashed
  }

  /** `Product::where('id', id)->where('status', 'active')->first()`, inside the default scope. */
  function FindAvailable(t: Table, id: nat): (r: Option<Product>)
    ensures r.Some? <==> id in t && t[id].status == Active && !t[id].trashed
    ensures r.Some? ==> r.value == t[id] && Find(t, id) == r
  {
    if id in t && Available(t[id]) then Some(t[id]) else None
  }

  /** The public catalog page: active products outside the trash. */
  function ActiveListing(t: Table): (r: Table)
    ensures forall id :: id in r <==> FindAvailable(t, id).Some?
    ensures forall id :: id in r ==> id in t && r[id] == t[id]
  {
    map id | id in t && Available(t[id]) :: t[id]
  }

  /** The administrative page: every row, trashed or not, whatever its status. */
  function AdminListing(t: Table): (r: Table)
    ensures forall id :: id in r <==> FindWithTrashed(t, id).Some?
    ensures forall id :: id in r ==> id in t && r[id] == t[id]
    ensures ActiveListing(t).Keys <= r.Keys
  {
    t
  }

  // ---------------------------------------------------------------------------
  // Validation of the create and update forms
  // ---------------------------------------------------------------------------

  /** A request field: not sent (or empty, which the framework turns into null),
      sent but of the wrong kind for its rule, or sent with a value. */
  datatype Input<T> = Absent | Malformed | Given(value: T)

  /** The create/update form. A price is `Malformed` when it is not numeric and
      otherwise carries its amount in cents. */
  datatype ProductForm = ProductForm(name: Input<string>, price: Input<int>, status: Input<string>)

  datatype Field = NameField | PriceField | StatusField

  /** The validated data: what the form writes into a row. */
  datatype ProductData = ProductData(name: string, price: int, status: Option<Status>)

  const MaxNameLength: nat := 255

  /** The characters PHP's trim removes; `required` rejects a string made only of these. */
  predicate IsTrimmed(c: char)
  {
    c == ' ' || c == '\t' || c == '\n' || c == '\r' || c == '\0' || c == '\U{B}'
  }

  predicate Blank(s: string)
  {
    forall i :: 0 <= i < |s| ==> IsTrimmed(s[i])
  }

  /** `required|string|max:255` */
  predicate NameValid(i: Input<string>)
  {
    i.Given? && !Blank(i.value) && |i.value| <= MaxNameLength
  }

  /** `required|numeric`: any number passes, negative ones included. */
  predicate PriceValid(i: Input<int>)
  {
    i.Given?
  }

  /** `nullable|in:active,inactive,deleted` */
  predicate StatusValid(i: Input<string>)
  {
    i.Absent? || (i.Given? && ParseStatus(i.value).Some?)
  }

  /** Runs the three rules; like the framework it reports every failing field, not just the first. */
  function Validate(f: ProductForm): (r: Result<ProductData, set<Field>>)
    ensures r.Success? <==> NameValid(f.name) && PriceValid(f.price) && StatusValid(f.status)
    ensures r.Failure? ==> r.error != {}
    ensures r.Failure? ==> (NameField in r.error <==> !NameValid(f.name))
    ensures r.Failure? ==> (PriceField in r.error <==> !PriceValid(f.price))
    ensures r.Failure? ==> (StatusField in r.error <==> !StatusValid(f.status))
    ensures r.Success? ==> r.value.name == f.name.value && 0 < |r.value.name| <= MaxNameLength
    ensures r.Success? ==> r.value.price == f.price.value
    ensures r.Success? ==> (r.value.status.None? <==> f.status.Absent?)
    ensures r.Success? && r.value.status.Some? ==> f.status.value == StatusName(r.value.status.value)
  {
    var errors :=
      (if NameValid(f.name) then {} else {NameField}) +
      (if PriceValid(f.price) then {} else {PriceField}) +
      (if StatusValid(f.status) then {} else {StatusField});
    if errors == {} then
      Success(ProductData(f.name.value, f.price.value,
                          if f.status.Given? then ParseStatus(f.status.value) else None))
    else
      Failure(errors)
  }

  /** The row `store` creates: status defaults to active, the creator falls back to user 1. */
  function NewProduct(d: ProductData, auth: Option<nat>): (p: Product)
    ensures p.name == d.name && p.price == d.price
    ensures p.status == (if d.status.Some? then d.status.value else Active)
    ensures p.createdBy == Some(ActingUser(auth)) && p.updatedBy.None?
    ensures p.image.None? && !p.trashed
  {
    Product(d.name, d.price, None, if d.status.Some? then d.status.value else Active,
            Some(ActingUser(auth)), None, false)
  }

  /** The row after `update`: the form's fields and the updater change, nothing else does. */
  function UpdatedProduct(p: Product, d: ProductData, auth: Option<nat>): (q: Product)
    ensures q.name == d.name && q.price == d.price
    ensures q.status == (if d.status.Some? then d.status.value else p.status)
    ensures q.updatedBy == Some(ActingUser(auth))
    ensures q.image == p.image && q.createdBy == p.createdBy && q.trashed == p.trashed
  {
    p.(name := d.name, price := d.price,
       status := if d.status.Some? then d.status.value else p.status,
       updatedBy := Some(ActingUser(auth)))
  }

  // ---------------------------------------------------------------------------
  // The products table and the administrative actions
  // ---------------------------------------------------------------------------

  /** What an administrative action answers: a redirect back carrying a success
      or an error message, or the fields that failed validation. */
  datatype Redirect = WithSuccess(message: string) | WithError(message: string) | WithErrors(fields: set<Field>)

  const NotFoundMessage := "Product not found"

  class ProductStore {
    var rows: Table
    /** The next auto-increment id; ids are never reused, even after a permanent delete. */
    var nextId: nat

    ghost predicate Valid()
      reads this
    {
      nextId >= 1 && forall id :: id in rows ==> 1 <= id < nextId
    }

    constructor ()
      ensures Valid() && rows == map[] && nextId == 1
    {
      rows := map[];
      nextId := 1;
    }

    /** Creates a product from a valid form under the counter's id, which is above
        every id the table holds; the counter then moves past it. */
    method Store(form: ProductForm, auth: Option<nat>) returns (r: Redirect)
      requires Valid()
      modifies this
      ensures Valid()
      ensures Validate(form).Failure? ==>
        r == WithErrors(Validate(form).error) && rows == old(rows) && nextId == old(nextId)
      ensures Validate(form).Success? ==>
        && r == WithSuccess("Product created")
        && (forall k :: k in old(rows) ==> k < old(nextId))
        && rows == old(rows)[old(nextId) := NewProduct(Validate(form).value, auth)]
        && nextId == old(nextId) + 1
    {
      var v := Validate(form);
      if v.Failure? {
        return WithErrors(v.error);
      }
      rows := rows[nextId := NewProduct(v.value, auth)];
      nextId := nextId + 1;
      r := WithSuccess("Product created");
    }

    /** Updates a product outside the trash; the lookup comes before validation. */
    method Update(id: nat, form: ProductForm, auth: Option<nat>) returns (r: Redirect)
      requires Valid()
      modifies this
      ensures Valid() && nextId == old(nextId)
      ensures Find(old(rows), id).None? ==> r == WithError(NotFoundMessage) && rows == old(rows)
      ensures Find(old(rows), id).Some? && Validate(form).Failure? ==>
        r == WithErrors(Validate(form).error) && rows == old(rows)
      ensures Find(old(rows), id).Some? && Validate(form).Success? ==>
        && r == WithSuccess("Product updated")
        && rows == old(rows)[id := UpdatedProduct(old(rows)[id], Validate(form).value, auth)]
    {
      var found := Find(rows, id);
      if found.None? {
        return WithError(NotFoundMessage);
      }
      var v := Validate(form);
      if v.Failure? {
        return WithErrors(v.error);
      }
      rows := rows[id := UpdatedProduct(found.value, v.value, auth)];
      r := WithSuccess("Product updated");
    }

    /** Soft delete: status becomes deleted and the row goes to the trash, in one step. */
    method Destroy(id: nat) returns (r: Redirect)
      requires Valid()
      modifies this
      ensures Valid() && nextId == old(nextId)
      ensures Find(old(rows), id).None? ==> r == WithError(NotFoundMessage) && rows == old(rows)
      ensures Find(old(rows), id).Some? ==>
        && r == WithSuccess("Product moved to trash")
        && rows == old(rows)[id := old(rows)[id].(status := Deleted, trashed := true)]
    {
      var found := Find(rows, id);
      if found.None? {
        return WithError(NotFoundMessage);
      }
      var p := found.value.(status := Deleted);
      rows := rows[id := p];
      rows := rows[id := p.(trashed := true)];
      r := WithSuccess("Product moved to trash");
    }

    /** Takes a row out of the trash. The status is left as it is, so a restored
        product keeps status deleted and stays off the public catalog. */
    method Restore(id: nat) returns (r: Redirect)
      requires Valid()
      modifies this
      ensures Valid() && nextId == old(nextId)
      ensures !(id in old(rows) && old(rows)[id].trashed) ==>
        r == WithError("Product not found or not trashed") && rows == old(rows)
      ensures id in old(rows) && old(rows)[id].trashed ==>
        && r == WithSuccess("Product restored")
        && rows == old(rows)[id := old(rows)[id].(trashed := false)]
    {
      var found := FindWithTrashed(rows, id);
      if found.Some? && found.value.trashed {
        rows := rows[id := found.value.(trashed := false)];
        return WithSuccess("Product restored");
      }
      r := WithError("Product not found or not trashed");
    }

    /** Permanent delete: finds trashed and live rows alike and drops the key. */
    method ForceDelete(id: nat) returns (r: Redirect)
      requires Valid()
      modifies this
      ensures Valid() && nextId == old(nextId)
      ensures id !in old(rows) ==> r == WithError(NotFoundMessage) && rows == old(rows)
      ensures id in old(rows) ==> r == WithSuccess("Product permanently deleted") && rows == old(rows) - {id}
    {
      var found := FindWithTrashed(rows, id);
      if found.Some? {
        rows := rows - {id};
        return WithSuccess("Product permanently deleted");
      }
      r := WithError(NotFoundMessage);
    }
  }

  // ---------------------------------------------------------------------------
  // Properties of the lifecycle
  // ---------------------------------------------------------------------------

  /** A status is accepted exactly when it is absent or one of the three names. */
  lemma StatusRule(f: ProductForm)
    ensures StatusValid(f.status) <==>
      f.status.Absent? || (f.status.Given? && f.status.value in {"active", "inactive", "deleted"})
  {
    if f.status.Given? {
      var s := f.status.value;
      if ParseStatus(s).Some? {
        assert s == StatusName(ParseStatus(s).value);
      }
    }
  }

  /** A trashed row is on the administrative page only. */
  lemma TrashedOnlyInAdminListing(t: Table, id: nat)
    requires id in t && t[id].trashed
    ensures id in AdminListing(t) && id !in ActiveListing(t)
    ensures Find(t, id).None? && FindWithTrashed(t, id) == Some(t[id])
  {
  }
}
