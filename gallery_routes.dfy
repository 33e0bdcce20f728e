/** The decision rules of the `/gallery` REST handlers. */
module GalleryRoutes {
  import opened Wrappers
  import opened Http

  datatype GalleryImage = GalleryImage(
    title: string, category: string, imageUrl: string, cloudinaryId: string,
    description: string, createdAt: int)

  type GalleryDb = map<Id, GalleryImage>

  // ---------------------------------------------------------------------
  // GET /
  // ---------------------------------------------------------------------

  /** The query object: at most an exact category. */
  predicate Matches(category: Option<string>, g: GalleryImage) {
    category.Some? ==> g.category == category.value
  }

  /** An absent or `all` category gives the empty filter; any other must match exactly. */
  method ListFilter(category: Field) returns (f: Option<string>)
    ensures f.None? <==> !Truthy(category) || category.value == "all"
    ensures forall g :: Matches(f, g) <==>
      (Truthy(category) && category.value != "all" ==> g.category == category.value)
  {
    f := None;
    if Truthy(category) && category.value != "all" {
      f := category;
    }
  }

  /** `sort({ createdAt: -1 })`. */
  predicate NewestFirst(a: GalleryImage, b: GalleryImage) {
    a.createdAt >= b.createdAt
  }

  ghost predicate IsGalleryListing(db: GalleryDb, category: Option<string>, out: seq<Id>) {
    IsListing(db, g => Matches(category, g), NewestFirst, out)
  }

  /** In a listing, no image comes before a newer one. */
  lemma ListingNewestFirst(db: GalleryDb, category: Option<string>, out: seq<Id>, i: nat, j: nat)
    requires IsGalleryListing(db, category, out) && i < j < |out|
    ensures db[out[i]].createdAt >= db[out[j]].createdAt
  {
    assert NewestFirst(db[out[i]], db[out[j]]);
  }

  /** With distinct creation times the newest-first order fixes the listing completely. */
  lemma ListingDetermined(db: GalleryDb, category: Option<string>, a: seq<Id>, b: seq<Id>)
    requires forall x, y :: x in db && y in db && x != y ==> db[x].createdAt != db[y].createdAt
    requires IsGalleryListing(db, category, a) && IsGalleryListing(db, category, b)
    ensures a == b
  {
    ListingUnique(db, g => Matches(category, g), NewestFirst, a, b);
  }

  // ---------------------------------------------------------------------
  // POST /
  // ---------------------------------------------------------------------

  datatype UploadForm = UploadForm(title: Field, category: Field, description: Field)

  /**
   * `POST /`: 400 and nothing saved without a title, a category and an
   * uploaded image; otherwise the image with the description defaulting
   * to empty. The schema requires a URL and a public id, so an upload
   * lacking either fails on save with 500.
   */
  function Create(db: GalleryDb, body: UploadForm, file: Option<Upload>, newId: Id, now: int)
    : (r: Handled<GalleryImage, GalleryDb>)
    requires newId !in db
    ensures r.destroyed == []
    ensures !Truthy(body.title) || !Truthy(body.category) || file.None? ==>
      r.response == Error(BAD_REQUEST, "Title, category, and image are required") && r.db == db
    ensures r.response.code == CREATED <==>
      Truthy(body.title) && Truthy(body.category) && file.Some? &&
      file.value.path != "" && file.value.filename != ""
    ensures r.response.code != CREATED ==> r.db == db
    ensures r.response.code == CREATED ==>
      r.response == Body(CREATED, GalleryImage(body.title.value, body.category.value,
        file.value.path, file.value.filename,
        if Truthy(body.description) then body.description.value else "", now))
      && r.db == db[newId := r.response.value]
  {
    if !Truthy(body.title) || !Truthy(body.category) || file.None? then
      Handled(Error(BAD_REQUEST, "Title, category, and image are required"), db, [])
    else
      var g := GalleryImage(body.title.value, body.category.value,
                            file.value.path, file.value.filename,
                            if Truthy(body.description) then body.description.value else "", now);
      if g.imageUrl == "" || g.cloudinaryId == "" then
        Handled(Error(SERVER_ERROR, "Failed to upload image"), db, [])
      else Handled(Body(CREATED, g), db[newId := g], [])
  }

  // ---------------------------------------------------------------------
  // DELETE /:id
  // ---------------------------------------------------------------------

  /** `DELETE /:id`: 404 for a missing id; else its hosted image is destroyed and the record goes. */
  function Delete(db: GalleryDb, id: Id): (r: Handled<GalleryImage, GalleryDb>)
    ensures id !in db ==> r == Handled(Error(NOT_FOUND, "Image not found"), db, [])
    ensures id in db ==>
      && r.response == Message(OK, "Image deleted successfully")
      && id !in r.db && r.db.Keys == db.Keys - {id}
      && (forall k :: k in r.db ==> r.db[k] == db[k])
      && r.destroyed == [db[id].cloudinaryId]
  {
    if id !in db then Handled(Error(NOT_FOUND, "Image not found"), db, [])
    else Handled(Message(OK, "Image deleted successfully"), db - {id}, [db[id].cloudinaryId])
  }
}
