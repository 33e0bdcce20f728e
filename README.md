# Artisan Home admin core, modelled in Dafny

This project models the decision logic of a furnishing showroom's web
application. There are three layers:

- **The observable admin store** (`Store.Store`). It holds four ordered
  collections (enquiries, appointments, gallery items, content items), a
  settings record and a set of listeners. Every mutator rebuilds one
  collection by prepending, appending, merging by id or filtering by id,
  and then notifies every listener once. `subscribe` hands back a remover.
  Listener calls are recorded in a ghost trace `calls`, so the contracts
  can say who is called and in which order.
- **The REST handlers** for products, enquiries, appointments, site
  content and gallery images. The Mongo collection is a `map` from
  document id to record. Each handler is a function from the request and
  the database to a `Handled` value: the response (status code and body,
  message or error), the new database, and the hosted images it destroys.
  Each query-to-filter step is a method. Its result is characterised by a
  `Matches` predicate. The database's sort is the ghost predicate
  `Http.IsListing`.
- **The admin and public pages**: list filters, statistics, form-save
  guards and their dispatch to the store, image-path resolution, sidebar
  highlighting and the breadcrumb.

Shared modules define:

- `Wrappers.Option`;
- JavaScript truthiness of request fields (`Http.Truthy`, `Http.JsonTruthy`);
- ASCII `toLowerCase` and `includes`, `split(..)[0]` / `split(..).pop()`
  and decimal text (`Text`);
- `Array.prototype.filter` with its order and membership facts (`Seqs`).

The clock (`Date.now()`, `new Date()`), the ids the database assigns, the
uploaded file, the date parser and the random placeholder choice are all
parameters.

Two places where the code decides the behaviour and the model follows it:

- The product schema requires `image` (server/src/models/index.ts:41).
  So a product `POST` without an uploaded file passes the handler's own
  400 check but fails on save with 500 (`ProductRoutes.Create`).
- A `PATCH` status on an enquiry or appointment only checks that the status
  is truthy. A status outside the schema's enum therefore fails on save
  with 500 and changes nothing (`EnquiryRoutes.UpdateStatus`,
  `AppointmentRoutes.UpdateStatus`).

## Model

| member | source | states |
|---|---|---|
| Store.Store.constructor | src/lib/store.ts:249-255 | the store starts with the given collections and settings, no listeners and no calls |
| Store.Store.Subscribe | src/lib/store.ts:257-260 | the listener joins the set once: subscribing an already registered listener leaves the set unchanged; the data and the call trace are untouched |
| Store.Store.Unsubscribe | src/lib/store.ts:259 | the remover deletes exactly that listener, reports whether it was present, and keeps the others distinct and in order |
| Store.RemoveListener | src/lib/store.ts:259 | removing from a distinct listener sequence keeps every other listener, drops that one, stays distinct, and is the identity when the listener is absent |
| Store.RemoveListenerAppended | src/lib/store.ts:257-259 | subscribing a listener and then calling its remover is the same as removing it from the set as it was |
| Store.UnsubscribedListenerIsNotCalled | src/lib/store.ts:257-264 | after subscribe and then the returned remover, the next mutation calls every remaining listener once and never the removed one |
| Store.Store.Notify | src/lib/store.ts:262-264 | the loop appends every registered listener to the call trace once, in set order |
| Store.Store.GetEnquiries | src/lib/store.ts:267-269 | the getter returns the enquiry list |
| Store.Store.AddEnquiry | src/lib/store.ts:271-282 | the new enquiry takes the clock as id, status new, the date part of the ISO time and empty notes, keeps the input fields, and goes first; nothing else changes; listeners are notified once |
| Store.Store.UpdateEnquiry | src/lib/store.ts:284-289 | the list becomes the id-merge of the old list; listeners are notified once even when no id matches |
| Store.Store.DeleteEnquiry | src/lib/store.ts:291-294 | the list becomes the old list without that id; listeners are notified once |
| Store.Store.GetAppointments | src/lib/store.ts:297-299 | returns the appointment list |
| Store.Store.AddAppointment | src/lib/store.ts:301-309 | the new appointment takes the clock as id, keeps every input field, and is prepended; notified once |
| Store.Store.UpdateAppointment | src/lib/store.ts:311-316 | id-merge of the appointment list; notified once |
| Store.Store.DeleteAppointment | src/lib/store.ts:318-321 | the appointment list without that id; notified once |
| Store.Store.GetGallery | src/lib/store.ts:324-326 | returns the gallery list |
| Store.Store.AddGalleryItem | src/lib/store.ts:328-336 | the new item takes the clock as id and is prepended; notified once |
| Store.Store.UpdateGalleryItem | src/lib/store.ts:338-343 | id-merge of the gallery; notified once |
| Store.Store.DeleteGalleryItem | src/lib/store.ts:345-348 | the gallery without that id; notified once |
| Store.Store.GetContent | src/lib/store.ts:351-353 | returns the content list |
| Store.Store.UpdateContent | src/lib/store.ts:355-360 | id-merge of the content list; notified once |
| Store.Store.AddContent | src/lib/store.ts:362-370 | unlike the other adds, the item is appended at the end, with id `type-clock`; notified once |
| Store.Store.DeleteContent | src/lib/store.ts:372-375 | the content list without that id; notified once |
| Store.Store.GetSettings | src/lib/store.ts:378-380 | returns the settings record |
| Store.Store.UpdateSettings | src/lib/store.ts:382-385 | the settings become the field-wise merge of the update; notified once |
| Store.MergeSettingsFields | src/lib/store.ts:383 | each settings field is replaced exactly when the update carries it, and kept otherwise |
| Store.EnquiryStatusPatchOnlyStatus | src/lib/store.ts:286 | merging an update that carries only a status changes the status and nothing else |
| Store.UpdateWhereAt | src/lib/store.ts:285-287 | the merged list has the same length and order; each record with the id is merged with the update and every other record is unchanged |
| Store.UpdateWhereMissing | src/lib/store.ts:285-287 | when no record has the id, the list is unchanged |
| Store.WithoutSpec | src/lib/store.ts:292 | a record stays after delete exactly when it was there and has another id; the result is an order-preserving subsequence; deleting twice equals deleting once |
| Store.WithoutMissing | src/lib/store.ts:292 | deleting an id no record has leaves the list unchanged |
| Store.WithoutRemovesOne | src/lib/store.ts:292 | with unique ids, deleting a present id shortens the list by exactly one |
| Store.ContentIdRoundTrip | src/lib/store.ts:365 | a content id splits back at its dash into the type name and the clock value |
| Store.AddsShowNewestFirst | src/lib/store.ts:279 | two successive enquiry adds leave the later record first, then the earlier one (each whole record: clock id, status new, ISO date, empty notes), then the previous list |
| ProductRoutes.ListFilter | server/src/routes/products.ts:12-30 | without an Authorization header the status is always `active` whatever was asked; with one, the asked status filters only when given; an absent or `all` category adds no constraint; search matches the name case-insensitively; a product matches iff all these hold |
| ProductRoutes.PublicListingIsActive | server/src/routes/products.ts:17-32 | a listing under the public filter holds only active products |
| ProductRoutes.GetOne | server/src/routes/products.ts:41-47 | 404 exactly for a missing id, else that product |
| ProductRoutes.Create | server/src/routes/products.ts:56-77 | missing name, category or price gives 400 and no save; a created product is active with description defaulting to empty and the uploaded image; with the form valid but no uploaded image, the required image fails the save with 500 `Failed to create product`; only 201 changes the database |
| ProductRoutes.EditFields | server/src/routes/products.ts:95-98 | name, category and price change only when truthy; description changes whenever it is present, even as empty text; every other field is kept |
| ProductRoutes.Update | server/src/routes/products.ts:88-113 | 404 for a missing id; the save succeeds exactly when the edited record still has a name, a category and an image; a new file replaces the image and destroys the old hosted one when it has an id; the update time is the clock; a successful save replaces only that id, while a failed save gives 500 and no change, after the old image was already destroyed |
| ProductRoutes.Toggled | server/src/routes/products.ts:128 | the toggle maps active to hidden and hidden to active |
| ProductRoutes.ToggleTwice | server/src/routes/products.ts:128 | toggling twice restores the status |
| ProductRoutes.ToggleVisibility | server/src/routes/products.ts:123-131 | 404 for a missing id; otherwise only that product's status flips |
| ProductRoutes.ToggleVisibilityTwice | server/src/routes/products.ts:121-131 | two visibility requests leave the database as it was |
| ProductRoutes.Delete | server/src/routes/products.ts:141-152 | 404 and nothing removed for a missing id; otherwise the product is removed and its hosted image is destroyed when it has an id |
| EnquiryRoutes.ParseStatus | server/src/models/index.ts:67 | a string names a status exactly when it is one of the five enum names |
| EnquiryRoutes.Submit | server/src/routes/enquiries.ts:10-26 | missing name, phone, city or requirement gives 400 and no save; a created enquiry is new, with an absent email when none was truthy, and is returned with its message |
| EnquiryRoutes.ListFilter | server/src/routes/enquiries.ts:36-50 | an absent or `all` status adds no constraint; a search matches name, phone or email case-insensitively; an enquiry matches iff both hold |
| EnquiryRoutes.UnfilteredListingIsEverything | server/src/routes/enquiries.ts:52 | with neither status nor search, the listing holds every stored enquiry |
| EnquiryRoutes.UpdateStatus | server/src/routes/enquiries.ts:63-74 | 404 for a missing id; a truthy non-enum status fails with 500 and no change; otherwise status changes only when truthy and notes whenever present |
| EnquiryRoutes.UpdateStatusKeepsOthers | server/src/routes/enquiries.ts:65-72 | a status update keeps the contact fields and every other enquiry |
| EnquiryRoutes.Delete | server/src/routes/enquiries.ts:84-88 | 404 and no change for a missing id; otherwise exactly that enquiry is removed |
| AppointmentRoutes.ParseStatus | server/src/models/index.ts:98 | a string names a status exactly when it is one of the four enum names |
| AppointmentRoutes.Book | server/src/routes/appointments.ts:10-31 | any of the seven required fields missing gives 400 and no save; an unparsable date fails the save (500); a booking is pending, with an absent email when none was truthy |
| AppointmentRoutes.ListFilter | server/src/routes/appointments.ts:41-62 | an absent or `all` status adds no constraint; a date restricts to the half-open day from its midnight; search matches name, phone or email; the filter exists iff the date, when given, parses |
| AppointmentRoutes.DayWindowHalfOpen | server/src/routes/appointments.ts:49-54 | the window holds its start instant, not the instant one day later, and never overlaps the next day's window |
| AppointmentRoutes.EarlierSlotIsTotalPreorder | server/src/routes/appointments.ts:64 | the date-then-time order relates every pair and is transitive |
| AppointmentRoutes.DateListingInWindow | server/src/routes/appointments.ts:49-64 | every appointment of a date-filtered listing lies inside that day |
| AppointmentRoutes.UpdateStatus | server/src/routes/appointments.ts:75-86 | 404 for a missing id; a truthy non-enum status fails with 500; otherwise status changes only when truthy and notes whenever present |
| AppointmentRoutes.Delete | server/src/routes/appointments.ts:96-100 | 404 and no change for a missing id; otherwise exactly that appointment is removed |
| ContentRoutes.AllContent | server/src/routes/content.ts:21-24 | the loop builds a map holding every stored key with its value, and no other key |
| ContentRoutes.Get | server/src/routes/content.ts:10-26 | with a key: that document or 404; without one: the whole key-to-value map |
| ContentRoutes.Put | server/src/routes/content.ts:36-48 | no key or no value gives 400 and no change; otherwise the key maps to the value with the clock's time and other keys keep their documents |
| ContentRoutes.PutIdempotent | server/src/routes/content.ts:42-46 | repeating the same PUT changes nothing more |
| ContentRoutes.PutAcceptsFalsyValues | server/src/routes/content.ts:38 | zero, the empty string and null are accepted as values |
| ContentRoutes.IndexMap | server/src/routes/content.ts:64 | every key of an array's entry map is the decimal text of an index of the array, and each index text maps to the element at that index |
| ContentRoutes.Entries | server/src/routes/content.ts:64 | an object's entries are its fields; an array's entries are exactly its elements, each under its index text and no other key |
| ContentRoutes.Bulk | server/src/routes/content.ts:58-73 | a falsy or non-object body gives 400 and no change; otherwise every entry is upserted and keys the body does not name keep their documents |
| ContentRoutes.BulkOfOneIsPut | server/src/routes/content.ts:42-70 | a bulk body of one entry changes the database as the single PUT of that entry does |
| ContentRoutes.BulkArrayUsesIndexKeys | server/src/routes/content.ts:60-70 | an array body, which passes the object check, upserts its elements under the keys "0", "1" and so on |
| GalleryRoutes.ListFilter | server/src/routes/gallery.ts:12-17 | an absent or `all` category gives the empty filter; otherwise the category must match exactly |
| GalleryRoutes.ListingNewestFirst | server/src/routes/gallery.ts:19 | no image in a listing comes before a newer one |
| GalleryRoutes.ListingDetermined | server/src/routes/gallery.ts:19 | when no two images share a creation time, the category filter and the newest-first sort determine the listing: any two listings of the same query are equal |
| GalleryRoutes.Create | server/src/routes/gallery.ts:30-48 | missing title, category or file gives 400 and no save; a created image carries the file's URL and public id and a description defaulting to empty |
| GalleryRoutes.Delete | server/src/routes/gallery.ts:58-67 | 404 and no change for a missing id; otherwise its hosted image is destroyed and exactly that record is removed |
| AppointmentsPage.FilteredSpec | src/pages/admin/Appointments.tsx:93-100 | an appointment is shown iff its name or city contains the query case-insensitively and the status and type selectors are `all` or equal; the table keeps store order |
| AppointmentsPage.UnfilteredShowsAll | src/pages/admin/Appointments.tsx:94-98 | an empty query with both selectors on `all` shows every appointment |
| AppointmentsPage.FilteredIdempotent | src/pages/admin/Appointments.tsx:93 | filtering the shown table again with the same choices changes nothing |
| AppointmentsPage.StatsOf | src/pages/admin/Appointments.tsx:103-107 | the three counts together never exceed the number of appointments |
| AppointmentsPage.StatsMissRescheduled | src/pages/admin/Appointments.tsx:103-107 | the three counts plus the rescheduled count are exactly the number of appointments |
| AppointmentsPage.BlankForm | src/pages/admin/Appointments.tsx:109-123 | a fresh form cannot be saved as it is |
| AppointmentsPage.AddressAndCityUnchecked | src/pages/admin/Appointments.tsx:142-145 | saving needs name, phone, date and time only; address and city do not matter |
| AppointmentsPage.EditSaveRoundTrip | src/pages/admin/Appointments.tsx:125-148 | saving an edited appointment untouched leaves it unchanged |
| AppointmentsPage.EditFormSaveable | src/pages/admin/Appointments.tsx:125-145 | an appointment's edit form passes the guard exactly when it has a name, phone, date and time; saving a form that passed leaves an appointment whose edit form passes again |
| AppointmentsPage.HandleSave | src/pages/admin/Appointments.tsx:141-156 | an incomplete form changes nothing and notifies no one; otherwise the edited id is updated, or a new appointment with no enquiry link is added, never both |
| AppointmentsPage.StatusPatchOnlyStatus | src/pages/admin/Appointments.tsx:159 | the status change touches the status alone |
| AppointmentsPage.HandleStatusChange | src/pages/admin/Appointments.tsx:158-161 | one status-only update of that appointment |
| AppointmentsPage.HandleDelete | src/pages/admin/Appointments.tsx:163-170 | deletes the held appointment, and does nothing when none is held |
| GalleryPage.FilteredSpec | src/pages/admin/Gallery.tsx:70-74 | an item is shown iff its title contains the query case-insensitively and the category is `all` or equal, in store order |
| GalleryPage.UnfilteredShowsAll | src/pages/admin/Gallery.tsx:70-74 | an empty query with `all` shows every item |
| GalleryPage.CategoryRespected | src/pages/admin/Gallery.tsx:72 | a chosen category shows only items of that category |
| GalleryPage.AssetNamed | src/pages/admin/Gallery.tsx:130-145 | each of the six known file names selects its own image, and every other name the hero image |
| GalleryPage.ImageSrc | src/pages/admin/Gallery.tsx:126-148 | a URL outside the asset folder is unchanged; one inside resolves by its last segment |
| GalleryPage.ImageSrcOfAsset | src/pages/admin/Gallery.tsx:129-142 | a bundled image's path resolves to that image |
| GalleryPage.ImageSrcIdempotent | src/pages/admin/Gallery.tsx:126-148 | a resolved source resolves to itself |
| GalleryPage.UnknownAssetIsHero | src/pages/admin/Gallery.tsx:143-144 | an unknown file name in the asset folder falls back to the hero image |
| GalleryPage.BlankForm | src/pages/admin/Gallery.tsx:76-86 | the new-item form carries the drawn placeholder and cannot be saved as it is |
| GalleryPage.EditSaveRoundTrip | src/pages/admin/Gallery.tsx:88-107 | saving an edited item untouched leaves it unchanged |
| GalleryPage.HandleSave | src/pages/admin/Gallery.tsx:100-115 | a form without title, category or room changes nothing; otherwise the edited id is updated or a new item is added |
| GalleryPage.HandleDelete | src/pages/admin/Gallery.tsx:117-124 | deletes the held item, and does nothing when none is held |
| ContentPage.TabItemsSpec | src/pages/admin/Content.tsx:65 | a tab shows exactly the items of its type, in store order |
| ContentPage.TabsPartition | src/pages/admin/Content.tsx:65 | every item appears under exactly one of the three tabs |
| ContentPage.BlankForm | src/pages/admin/Content.tsx:67-78 | the new-item form takes the open tab's type, is active, and cannot be saved as it is |
| ContentPage.EditForm | src/pages/admin/Content.tsx:80-91 | a missing image or author shows as empty text |
| ContentPage.EditSaveRoundTrip | src/pages/admin/Content.tsx:80-100 | saving an item untouched keeps it, except that a missing image or author is stored back as empty text |
| ContentPage.HandleSave | src/pages/admin/Content.tsx:93-108 | a form without title or text changes nothing; otherwise the edited id is updated or a new item is appended |
| ContentPage.ToggleTwice | src/pages/admin/Content.tsx:111 | the switch negates `active` and nothing else; switching twice restores the item |
| ContentPage.HandleToggleActive | src/pages/admin/Content.tsx:110-113 | one update of that item's visibility, with a toast naming the visibility it switched to |
| ContentPage.HandleDelete | src/pages/admin/Content.tsx:115-122 | deletes the held item, and does nothing when none is held |
| CollectionsPage.FilteredSpec | src/pages/Collections.tsx:87-96 | a product is shown iff its name contains the query case-insensitively and the category and room are `all` or equal, in catalogue order |
| CollectionsPage.InitialShowsAll | src/pages/Collections.tsx:83-96 | an empty query with both selectors on `all` shows the whole catalogue |
| CollectionsPage.CatalogueShown | src/pages/Collections.tsx:14-63 | the shipped catalogue holds six products, and the initial page (empty search, `all`, `all`) shows all six in order |
| CollectionsPage.FilteredIdempotent | src/pages/Collections.tsx:87 | filtering the shown products again with the same choices changes nothing |
| CollectionsPage.SelectionRespected | src/pages/Collections.tsx:91-94 | a chosen category or room shows only products with that category or room |
| CollectionsPage.FiltersCompose | src/pages/Collections.tsx:91-95 | choosing the category and then the room equals choosing both at once |
| AdminLayout.DashboardActiveOnlyThere | src/components/layout/AdminLayout.tsx:35-37 | the dashboard link is active exactly on `/admin`, where no other link is |
| AdminLayout.SectionActiveAlone | src/components/layout/AdminLayout.tsx:19-39 | anywhere under a section's path, that link alone is highlighted |
| AdminLayout.RawPrefixMatch | src/components/layout/AdminLayout.tsx:38 | a path that merely begins with a section's text, such as `/admin/productsX`, activates it; the dashboard is not active on `/admin/products` |
| AdminLayout.Breadcrumb | src/components/layout/AdminLayout.tsx:158 | the breadcrumb is never empty and is a single path segment unless it falls back to `Dashboard` |
| AdminLayout.BreadcrumbOfSection | src/components/layout/AdminLayout.tsx:158 | a path ending in a non-empty segment shows that segment |
| AdminLayout.BreadcrumbEdgeCases | src/components/layout/AdminLayout.tsx:158 | `/admin` shows `admin`, and a trailing slash falls back to `Dashboard` |

## Left out

- The seed records the store starts with (src/lib/store.ts:62-246) are not reproduced. The constructor takes any initial data.
- Authentication is not modelled. Only the presence of the Authorization header enters the product filter. The auth middleware, JWT handling and the login route are not part of this model.
- Mongo and Cloudinary are not modelled. Queries, saves, upserts and image uploads are replaced by the id map and the `destroyed` list. Ids the database hands out are parameters. Casting an invalid ObjectId (a 500 in the source) is not modelled.
- Only the listing's contents and order are modelled. They are the ghost predicate `IsListing`, not a sorting algorithm.
- `$regex` search is modelled as a case-insensitive substring match. Regular-expression metacharacters in the query are not interpreted.
- Case folding is ASCII only. Unicode `toLowerCase` is not modelled.
- ProductRoutes.Create: the price is kept as its request text. `parseFloat` and a price that parses to NaN are not modelled.
- ProductRoutes.Update: the same holds for the price.
- AppointmentRoutes.ListFilter: the start of the day is whatever the date parser returns. The one-day window is a fixed 86 400 000 ms. `setDate` across a daylight-saving change is not modelled.
- AppointmentRoutes.Book: `new Date(date)` is the parser parameter. An unparsable date is its `None`.
- Request bodies are modelled as absent or string fields. Non-string JSON values in form fields are not modelled. Content values are JSON values.
- ContentRoutes.Bulk: the upserts of `Promise.all` are modelled as one map update, using one clock value for every entry. The keys of an object are distinct, so order does not matter. A partial failure of some upserts is not modelled.
- Listeners are opaque ids whose calls are recorded. A listener that mutates the store while `notify` runs is not modelled.
- The `get*` getters copy only the array, so the element records stay shared with the store. A change made through such a shared element, which skips `notify`, is not modelled. No page in this model changes one.
- Store.MergeEnquiry, Store.MergeAppointment, Store.MergeGalleryItem and Store.MergeContent: a `Partial<T>` patch can carry a key whose value is explicitly `undefined`, and the spread then copies `undefined` over the field. The `None`/`Some` patches cannot express this. No caller in this model passes such a key.
- Each page's own React state, the toasts on paths other than save and toggle, and the dialogs are not modelled. The random choice of placeholder image is a parameter.
- GalleryPage.AssetUrl: an imported image is modelled as its path under `/src/assets`, which is what `getImageSrc` recognises. A production bundle's hashed URL is not modelled.
- The page status, type and category selectors are modelled as `None` for `all` and `Some` for a choice. The collections page keeps the raw `all` text.
- Other pages are not part of this model: dashboard, enquiries, products, settings, login and the presentational sections. Neither are the API client, `useStore` hooks and server start-up.
