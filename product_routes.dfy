/** The decision rules of the `/products` REST handlers. */
module ProductRoutes {
  import opened Wrappers
  import opened Http
  import Text

  datatype ProductStatus = Active | Hidden

  function StatusName(s: ProductStatus): string {
    match s
    case Active => "active"
    case Hidden => "hidden"
  }

  /**
   * A stored product. `price` is kept as the submitted text: the
   * `parseFloat` conversion is not modelled. An empty `cloudinaryId`
   * means the product has no hosted image.
   */
  datatype Product = Product(
    name: string, category: string, price: string, description: string,
    status: ProductStatus, image: string, cloudinaryId: string,
    createdAt: int, updatedAt: int)

  type ProductDb = map<Id, Product>

  // ---------------------------------------------------------------------
  // GET /
  // ---------------------------------------------------------------------

  datatype ProductQuery = ProductQuery(category: Field, status: Field, search: Field)

  /** The query object handed to the database. */
  datatype ProductFilter = ProductFilter(
    status: Option<string>, category: Option<string>, nameLike: Option<string>)

  predicate Matches(f: ProductFilter, p: Product) {
    && (f.status.Some? ==> StatusName(p.status) == f.status.value)
    && (f.category.Some? ==> p.category == f.category.value)
    && (f.nameLike.Some? ==> Text.ContainsIgnoreCase(p.name, f.nameLike.value))
  }

  /**
   * Builds the list filter field by field. Without an `Authorization`
   * header only active products match, whatever status was asked for;
   * the header's presence alone lifts that, and then `status` constrains
   * only when given. `category` other than `all` must match exactly, and
   * `search` is a case-insensitive match on the name only.
   */
  method ListFilter(q: ProductQuery, authorization: Field) returns (f: ProductFilter)
    ensures !Truthy(authorization) ==> f.status == Some("active")
    ensures forall p :: Matches(f, p) <==>
      && (if Truthy(authorization)
          then Truthy(q.status) ==> StatusName(p.status) == q.status.value
          else p.status == Active)
      && (Truthy(q.category) && q.category.value != "all" ==> p.category == q.category.value)
      && (Truthy(q.search) ==> Text.ContainsIgnoreCase(p.name, q.search.value))
  {
    f := ProductFilter(None, None, None);
    if !Truthy(authorization) {
      f := f.(status := Some("active"));
    } else if Truthy(q.status) {
      f := f.(status := q.status);
    }
    if Truthy(q.category) && q.category.value != "all" {
      f := f.(category := q.category);
    }
    if Truthy(q.search) {
      f := f.(nameLike := q.search);
    }
  }

  /** `sort({ createdAt: -1 })`: newest first. */
  predicate NewestFirst(a: Product, b: Product) {
    a.createdAt >= b.createdAt
  }

  /** What `GET /` answers for a filter: the matching products, newest first. */
  ghost predicate IsProductListing(db: ProductDb, f: ProductFilter, out: seq<Id>) {
    IsListing(db, p => Matches(f, p), NewestFirst, out)
  }

  /** A public listing never shows a hidden product. */
  lemma PublicListingIsActive(db: ProductDb, f: ProductFilter, out: seq<Id>, i: nat)
    requires f.status == Some("active")
    requires IsProductListing(db, f, out) && i < |out|
    ensures db[out[i]].status == Active
  {
    assert Matches(f, db[out[i]]);
  }

  // ---------------------------------------------------------------------
  // GET /:id
  // ---------------------------------------------------------------------

  function GetOne(db: ProductDb, id: Id): (r: Response<Product>)
    ensures id !in db <==> r == Error(NOT_FOUND, "Product not found")
    ensures id in db ==> r == Body(OK, db[id])
  {
    if id !in db then Error(NOT_FOUND, "Product not found") else Body(OK, db[id])
  }

  // ---------------------------------------------------------------------
  // POST /
  // ---------------------------------------------------------------------

  /** The multipart form fields the create and update handlers read. */
  datatype ProductForm = ProductForm(name: Field, category: Field, price: Field, description: Field)

  /**
   * The schema's required-field check run by `save()`: whatever the route
   * builds, a product with an empty name, category or image is rejected.
   */
  predicate Saveable(p: Product) {
    p.name != "" && p.category != "" && p.image != ""
  }

  /** The product `POST /` builds from a valid form. */
  function NewProduct(body: ProductForm, file: Option<Upload>, now: int): Product
    requires Truthy(body.name) && Truthy(body.category) && Truthy(body.price)
  {
    Product(body.name.value, body.category.value, body.price.value,
            if Truthy(body.description) then body.description.value else "",
            Active,
            if file.Some? then file.value.path else "",
            if file.Some? then file.value.filename else "",
            now, now)
  }

  /**
   * `POST /`: without a name, category or price the answer is 400 and
   * nothing is saved; otherwise an active product with the form's fields
   * is stored under the id the database hands out. The schema requires an
   * image, so a form without an upload fails on save with 500.
   */
  function Create(db: ProductDb, body: ProductForm, file: Option<Upload>, newId: Id, now: int)
    : (r: Handled<Product, ProductDb>)
    requires newId !in db
    ensures r.destroyed == []
    ensures !Truthy(body.name) || !Truthy(body.category) || !Truthy(body.price) ==>
      r.response == Error(BAD_REQUEST, "Name, category, and price are required") && r.db == db
    ensures file.None? ==> r.db == db && r.response.code != CREATED
    ensures Truthy(body.name) && Truthy(body.category) && Truthy(body.price) &&
            !(file.Some? && file.value.path != "") ==>
      r.response == Error(SERVER_ERROR, "Failed to create product") && r.db == db
    ensures r.response.code == CREATED <==>
      Truthy(body.name) && Truthy(body.category) && Truthy(body.price) && file.Some? && file.value.path != ""
    ensures r.response.code == CREATED ==> r.response.Body?
    ensures r.response.Body? && r.response.code == CREATED ==>
      var p := r.response.value;
      && r.db == db[newId := p]
      && p.status == Active
      && p.name == body.name.value && p.category == body.category.value && p.price == body.price.value
      && p.description == (if Truthy(body.description) then body.description.value else "")
      && p.image == file.value.path && p.cloudinaryId == file.value.filename
    ensures r.response.code != CREATED ==> r.db == db
  {
    if !Truthy(body.name) || !Truthy(body.category) || !Truthy(body.price) then
      Handled(Error(BAD_REQUEST, "Name, category, and price are required"), db, [])
    else
      var p := NewProduct(body, file, now);
      if !Saveable(p) then Handled(Error(SERVER_ERROR, "Failed to create product"), db, [])
      else Handled(Body(CREATED, p), db[newId := p], [])
  }

  // ---------------------------------------------------------------------
  // PUT /:id
  // ---------------------------------------------------------------------

  /**
   * The field edits `PUT /:id` makes to the fetched document: name, category
   * and price only when truthy, the description whenever it is sent, even
   * empty.
   */
  function EditFields(p: Product, body: ProductForm): (q: Product)
    ensures q.name == (if Truthy(body.name) then body.name.value else p.name)
    ensures q.category == (if Truthy(body.category) then body.category.value else p.category)
    ensures q.price == (if Truthy(body.price) then body.price.value else p.price)
    ensures q.description == (if body.description.Some? then body.description.value else p.description)
    ensures q.status == p.status && q.image == p.image && q.cloudinaryId == p.cloudinaryId
    ensures q.createdAt == p.createdAt && q.updatedAt == p.updatedAt
  {
    var p1 := if Truthy(body.name) then p.(name := body.name.value) else p;
    var p2 := if Truthy(body.category) then p1.(category := body.category.value) else p1;
    var p3 := if Truthy(body.price) then p2.(price := body.price.value) else p2;
    if body.description.Some? then p3.(description := body.description.value) else p3
  }

  /**
   * `PUT /:id`: 404 and no change for a missing id. Otherwise the edits
   * above, a new image replacing the old one (whose hosted copy is
   * destroyed first, when there is one), the update time, and a save that
   * touches only this id.
   */
  function Update(db: ProductDb, id: Id, body: ProductForm, file: Option<Upload>, now: int)
    : (r: Handled<Product, ProductDb>)
    ensures id !in db ==> r == Handled(Error(NOT_FOUND, "Product not found"), db, [])
    ensures id in db ==>
      && r.destroyed == (if file.Some? && db[id].cloudinaryId != "" then [db[id].cloudinaryId] else [])
      && (r.response.code == OK <==>
            Saveable(EditFields(db[id], body).(
              image := if file.Some? then file.value.path else db[id].image,
              cloudinaryId := if file.Some? then file.value.filename else db[id].cloudinaryId,
              updatedAt := now)))
      && (r.response.code == OK ==>
            && r.response.Body?
            && r.db == db[id := r.response.value]
            && r.response.value == EditFields(db[id], body).(
                 image := if file.Some? then file.value.path else db[id].image,
                 cloudinaryId := if file.Some? then file.value.filename else db[id].cloudinaryId,
                 updatedAt := now))
      && (r.response.code != OK ==> r.db == db && r.response == Error(SERVER_ERROR, "Failed to update product"))
  {
    if id !in db then Handled(Error(NOT_FOUND, "Product not found"), db, [])
    else
      var current := db[id];
      var edited := EditFields(current, body);
      var destroyed := if file.Some? && current.cloudinaryId != "" then [current.cloudinaryId] else [];
      var withImage := if file.Some? then edited.(image := file.value.path, cloudinaryId := file.value.filename) else edited;
      var saved := withImage.(updatedAt := now);
      if !Saveable(saved) then Handled(Error(SERVER_ERROR, "Failed to update product"), db, destroyed)
      else Handled(Body(OK, saved), db[id := saved], destroyed)
  }

  // ---------------------------------------------------------------------
  // PATCH /:id/visibility
  // ---------------------------------------------------------------------

  /** `status === 'active' ? 'hidden' : 'active'`. */
  function Toggled(s: ProductStatus): (r: ProductStatus)
    ensures r != s
    ensures r == Hidden <==> s == Active
  {
    if s == Active then Hidden else Active
  }

  /** Toggling twice restores the original status. */
  lemma ToggleTwice(s: ProductStatus)
    ensures Toggled(Toggled(s)) == s
  {
  }

  /** `PATCH /:id/visibility`: 404 for a missing id, else only the status flips. */
  function ToggleVisibility(db: ProductDb, id: Id): (r: Handled<Product, ProductDb>)
    ensures id !in db ==> r == Handled(Error(NOT_FOUND, "Product not found"), db, [])
    ensures id in db ==>
      && r.response == Body(OK, db[id].(status := Toggled(db[id].status)))
      && r.db == db[id := db[id].(status := Toggled(db[id].status))]
      && r.destroyed == []
  {
    if id !in db then Handled(Error(NOT_FOUND, "Product not found"), db, [])
    else
      var p := db[id].(status := Toggled(db[id].status));
      Handled(Body(OK, p), db[id := p], [])
  }

  /** Two visibility toggles leave the database as it was. */
  lemma ToggleVisibilityTwice(db: ProductDb, id: Id)
    ensures ToggleVisibility(ToggleVisibility(db, id).db, id).db == db
  {
    if id in db {
      ToggleTwice(db[id].status);
      assert db[id := db[id]] == db;
    }
  }

  // ---------------------------------------------------------------------
  // DELETE /:id
  // ---------------------------------------------------------------------

  /** `DELETE /:id`: 404 and nothing removed for a missing id; else the product and its hosted image go. */
  function Delete(db: ProductDb, id: Id): (r: Handled<Product, ProductDb>)
    ensures id !in db ==> r == Handled(Error(NOT_FOUND, "Product not found"), db, [])
    ensures id in db ==>
      && r.response == Message(OK, "Product deleted successfully")
      && r.db.Keys == db.Keys - {id}
      && (forall k :: k in r.db ==> r.db[k] == db[k])
      && r.destroyed == (if db[id].cloudinaryId != "" then [db[id].cloudinaryId] else [])
  {
    if id !in db then Handled(Error(NOT_FOUND, "Product not found"), db, [])
    else
      Handled(Message(OK, "Product deleted successfully"), db - {id},
              if db[id].cloudinaryId != "" then [db[id].cloudinaryId] else [])
  }
}
