/** The admin gallery page: its search, its category filter, its form and its image resolution. */
module GalleryPage {
  import opened Wrappers
  import Text
  import Seqs
  import opened Store

  // ---------------------------------------------------------------------
  // Listing
  // ---------------------------------------------------------------------

  /** The title contains the query, ignoring case; `None` is the `all` category. */
  predicate Matches(query: string, category: Option<string>, g: GalleryItem) {
    Text.ContainsIgnoreCase(g.title, query) && (category.None? || g.category == category.value)
  }

  function Filtered(s: seq<GalleryItem>, query: string, category: Option<string>): seq<GalleryItem> {
    Seqs.Filter(s, g => Matches(query, category, g))
  }

  /** The grid shows exactly the matching items, in store order. */
  lemma FilteredSpec(s: seq<GalleryItem>, query: string, category: Option<string>)
    ensures forall g :: g in Filtered(s, query, category) <==> g in s && Matches(query, category, g)
    ensures Seqs.IsSubsequence(Filtered(s, query, category), s)
  {
    var p := g => Matches(query, category, g);
    forall g ensures g in Seqs.Filter(s, p) <==> g in s && p(g) {
      Seqs.FilterMembership(s, p, g);
    }
    Seqs.FilterIsSubsequence(s, p);
  }

  /** With an empty search and the `all` category, every item is shown. */
  lemma UnfilteredShowsAll(s: seq<GalleryItem>)
    ensures Filtered(s, "", None) == s
  {
    forall i | 0 <= i < |s| ensures Matches("", None, s[i]) {
      Text.ContainsIgnoreCaseEmpty(s[i].title);
    }
    Seqs.FilterAllPass(s, g => Matches("", None, g));
  }

  /** A chosen category admits only items of that category. */
  lemma CategoryRespected(s: seq<GalleryItem>, query: string, category: string, g: GalleryItem)
    requires g in Filtered(s, query, Some(category))
    ensures g.category == category && Text.ContainsIgnoreCase(g.title, query)
  {
    FilteredSpec(s, query, Some(category));
  }

  // ---------------------------------------------------------------------
  // Bundled images
  // ---------------------------------------------------------------------

  /** The six images shipped with the site. */
  datatype Asset = Hero | BedroomInterior | KidsRoom | HomeOffice | CurtainsCloseup | SofaSeating

  function AssetFile(a: Asset): (f: string)
    ensures f != [] && '/' !in f
  {
    match a
    case Hero => "hero-living-room.jpg"
    case BedroomInterior => "bedroom-interior.jpg"
    case KidsRoom => "kids-room.jpg"
    case HomeOffice => "home-office.jpg"
    case CurtainsCloseup => "curtains-closeup.jpg"
    case SofaSeating => "sofa-seating.jpg"
  }

  const ASSET_DIR := "/src/assets"

  /** The value an image import evaluates to: its path under the source asset folder. */
  function AssetUrl(a: Asset): string {
    ASSET_DIR + "/" + AssetFile(a)
  }

  /** The bundled image a file name names; the hero image for any other name. */
  function AssetNamed(file: string): (a: Asset)
    ensures forall b: Asset :: file == AssetFile(b) ==> a == b
    ensures a != Hero ==> file == AssetFile(a)
    ensures (forall b: Asset :: file != AssetFile(b)) ==> a == Hero
  {
    if file == "bedroom-interior.jpg" then BedroomInterior
    else if file == "kids-room.jpg" then KidsRoom
    else if file == "home-office.jpg" then HomeOffice
    else if file == "curtains-closeup.jpg" then CurtainsCloseup
    else if file == "sofa-seating.jpg" then SofaSeating
    else Hero
  }

  /**
   * `getImageSrc`: a stored path into the asset folder is resolved by its
   * final segment to a bundled image (the hero image when unknown); any
   * other URL is used as it is.
   */
  function ImageSrc(url: string): (r: string)
    ensures !Text.StartsWith(url, ASSET_DIR + "/") ==> r == url
    ensures Text.StartsWith(url, ASSET_DIR + "/") ==>
      r == AssetUrl(AssetNamed(Text.AfterLast(url, '/')))
  {
    if Text.StartsWith(url, ASSET_DIR + "/") then AssetUrl(AssetNamed(Text.AfterLast(url, '/')))
    else url
  }

  /** A bundled image's own path resolves to that image. */
  lemma ImageSrcOfAsset(a: Asset)
    ensures ImageSrc(AssetUrl(a)) == AssetUrl(a)
  {
    Text.AfterLastOfJoin(ASSET_DIR, '/', AssetFile(a));
    assert Text.StartsWith(AssetUrl(a), ASSET_DIR + "/");
  }

  /** Resolving is idempotent: a resolved source resolves to itself. */
  lemma ImageSrcIdempotent(url: string)
    ensures ImageSrc(ImageSrc(url)) == ImageSrc(url)
  {
    if Text.StartsWith(url, ASSET_DIR + "/") {
      ImageSrcOfAsset(AssetNamed(Text.AfterLast(url, '/')));
    }
  }

  /** An asset path with an unknown file name falls back to the hero image. */
  lemma UnknownAssetIsHero(file: string)
    requires '/' !in file && forall a: Asset :: file != AssetFile(a)
    ensures ImageSrc(ASSET_DIR + "/" + file) == AssetUrl(Hero)
  {
    Text.AfterLastOfJoin(ASSET_DIR, '/', file);
    assert Text.StartsWith(ASSET_DIR + "/" + file, ASSET_DIR + "/");
  }

  // ---------------------------------------------------------------------
  // The form
  // ---------------------------------------------------------------------

  datatype Form = Form(title: string, category: string, roomType: string,
                       imageUrl: string, description: string)

  /** `handleAdd`: an empty form carrying the placeholder image drawn for it. */
  function BlankForm(placeholder: Asset): (f: Form)
    ensures !CanSave(f) && f.imageUrl == AssetUrl(placeholder)
  {
    Form("", "", "", AssetUrl(placeholder), "")
  }

  function EditForm(g: GalleryItem): Form {
    Form(g.title, g.category, g.roomType, g.imageUrl, g.description)
  }

  /** Title, category and room are required; the image and description are not. */
  predicate CanSave(f: Form) {
    f.title != "" && f.category != "" && f.roomType != ""
  }

  function FormPatch(f: Form): (u: GalleryPatch)
    ensures u.id.None?
  {
    GalleryPatch(None, Some(f.title), Some(f.category), Some(f.roomType),
                 Some(f.imageUrl), Some(f.description))
  }

  /** Opening an item for editing and saving it untouched leaves it as it was. */
  lemma EditSaveRoundTrip(g: GalleryItem)
    ensures MergeGalleryItem(g, FormPatch(EditForm(g))) == g
  {
  }

  const REQUIRED_TOAST := "Please fill in all required fields"

  /** `handleSave`: refuse an incomplete form; else update the edited item or add a new one. */
  method HandleSave(s: Store, editing: Option<GalleryItem>, f: Form, now: int) returns (toast: string)
    requires s.Valid()
    modifies s
    ensures s.Valid() && s.listeners == old(s.listeners)
    ensures !CanSave(f) ==>
      toast == REQUIRED_TOAST && s.State() == old(s.State()) && s.calls == old(s.calls)
    ensures CanSave(f) && editing.Some? ==>
      && toast == "Gallery item updated successfully"
      && s.State() == old(s.State()).(gallery :=
           UpdateWhere(old(s.gallery), GalleryItemId, editing.value.id, MergeGalleryItem, FormPatch(f)))
      && s.calls == old(s.calls) + s.listeners
    ensures CanSave(f) && editing.None? ==>
      && toast == "Gallery item added successfully"
      && s.State() == old(s.State()).(gallery :=
           [GalleryItem(now, f.title, f.category, f.roomType, f.imageUrl, f.description)]
           + old(s.gallery))
      && s.calls == old(s.calls) + s.listeners
  {
    if !CanSave(f) {
      return REQUIRED_TOAST;
    }
    if editing.Some? {
      s.UpdateGalleryItem(editing.value.id, FormPatch(f));
      toast := "Gallery item updated successfully";
    } else {
      var _ := s.AddGalleryItem(NewGalleryItem(f.title, f.category, f.roomType, f.imageUrl, f.description), now);
      toast := "Gallery item added successfully";
    }
  }

  /** `handleDelete`: deletes the item the confirmation dialog holds, if any. */
  method HandleDelete(s: Store, deleting: Option<GalleryItem>)
    requires s.Valid()
    modifies s
    ensures s.Valid() && s.listeners == old(s.listeners)
    ensures deleting.None? ==> s.State() == old(s.State()) && s.calls == old(s.calls)
    ensures deleting.Some? ==>
      && s.State() == old(s.State()).(gallery := Without(old(s.gallery), GalleryItemId, deleting.value.id))
      && s.calls == old(s.calls) + s.listeners
  {
    if deleting.Some? {
      s.DeleteGalleryItem(deleting.value.id);
    }
  }
}
