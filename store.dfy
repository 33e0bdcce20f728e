/**
 * The observable in-memory admin store: four ordered collections, a
 * settings record and a set of listeners that every mutation notifies.
 */
module Store {
  import opened Wrappers
  import Text
  import Seqs

  // ---------------------------------------------------------------------
  // Records
  // ---------------------------------------------------------------------

  datatype EnquiryStatus = New | Contacted | Converted

  datatype Enquiry = Enquiry(
    id: int, name: string, phone: string, email: string, city: string,
    requirement: string, status: EnquiryStatus, date: string, notes: string)

  /** What `addEnquiry` is given: an enquiry without id, status, date and notes. */
  datatype NewEnquiry = NewEnquiry(
    name: string, phone: string, email: string, city: string, requirement: string)

  /** A `Partial<Enquiry>`: `Some` for each key the update object carries. */
  datatype EnquiryPatch = EnquiryPatch(
    id: Option<int>, name: Option<string>, phone: Option<string>,
    email: Option<string>, city: Option<string>, requirement: Option<string>,
    status: Option<EnquiryStatus>, date: Option<string>, notes: Option<string>)

  datatype AppointmentKind = Measurement | Consultation | Installation
  datatype AppointmentStatus = Scheduled | Completed | Cancelled | Rescheduled

  datatype Appointment = Appointment(
    id: int, enquiryId: Option<int>, customerName: string, phone: string,
    address: string, city: string, date: string, time: string,
    kind: AppointmentKind, status: AppointmentStatus, notes: string)

  /** What `addAppointment` is given: an appointment without its id. */
  datatype NewAppointment = NewAppointment(
    enquiryId: Option<int>, customerName: string, phone: string,
    address: string, city: string, date: string, time: string,
    kind: AppointmentKind, status: AppointmentStatus, notes: string)

  datatype AppointmentPatch = AppointmentPatch(
    id: Option<int>, enquiryId: Option<int>, customerName: Option<string>,
    phone: Option<string>, address: Option<string>, city: Option<string>,
    date: Option<string>, time: Option<string>, kind: Option<AppointmentKind>,
    status: Option<AppointmentStatus>, notes: Option<string>)

  datatype GalleryItem = GalleryItem(
    id: int, title: string, category: string, roomType: string,
    imageUrl: string, description: string)

  datatype NewGalleryItem = NewGalleryItem(
    title: string, category: string, roomType: string,
    imageUrl: string, description: string)

  datatype GalleryPatch = GalleryPatch(
    id: Option<int>, title: Option<string>, category: Option<string>,
    roomType: Option<string>, imageUrl: Option<string>, description: Option<string>)

  datatype ContentKind = Banner | Testimonial | About

  /** The text the source uses for each content type. */
  function KindName(k: ContentKind): (r: string)
    ensures r != [] && '-' !in r && forall i :: 0 <= i < |r| ==> !Text.IsDigit(r[i])
  {
    match k
    case Banner => "banner"
    case Testimonial => "testimonial"
    case About => "about"
  }

  datatype ContentItem = ContentItem(
    id: string, kind: ContentKind, title: string, content: string,
    imageUrl: Option<string>, author: Option<string>, active: bool)

  datatype NewContent = NewContent(
    kind: ContentKind, title: string, content: string,
    imageUrl: Option<string>, author: Option<string>, active: bool)

  datatype ContentPatch = ContentPatch(
    id: Option<string>, kind: Option<ContentKind>, title: Option<string>,
    content: Option<string>, imageUrl: Option<string>, author: Option<string>,
    active: Option<bool>)

  datatype SiteSettings = SiteSettings(
    businessName: string, phone1: string, phone2: string, email: string,
    address: string, whatsappNumber: string, businessHours: string,
    metaTitle: string, metaDescription: string)

  datatype SettingsPatch = SettingsPatch(
    businessName: Option<string>, phone1: Option<string>, phone2: Option<string>,
    email: Option<string>, address: Option<string>, whatsappNumber: Option<string>,
    businessHours: Option<string>, metaTitle: Option<string>,
    metaDescription: Option<string>)

  // ---------------------------------------------------------------------
  // Object spread `{ ...record, ...updates }`: keys present in the update win
  // ---------------------------------------------------------------------

  function MergeEnquiry(e: Enquiry, u: EnquiryPatch): Enquiry {
    Enquiry(u.id.GetOr(e.id), u.name.GetOr(e.name), u.phone.GetOr(e.phone),
            u.email.GetOr(e.email), u.city.GetOr(e.city),
            u.requirement.GetOr(e.requirement), u.status.GetOr(e.status),
            u.date.GetOr(e.date), u.notes.GetOr(e.notes))
  }

  function MergeAppointment(a: Appointment, u: AppointmentPatch): Appointment {
    Appointment(u.id.GetOr(a.id),
                if u.enquiryId.Some? then u.enquiryId else a.enquiryId,
                u.customerName.GetOr(a.customerName), u.phone.GetOr(a.phone),
                u.address.GetOr(a.address), u.city.GetOr(a.city),
                u.date.GetOr(a.date), u.time.GetOr(a.time), u.kind.GetOr(a.kind),
                u.status.GetOr(a.status), u.notes.GetOr(a.notes))
  }

  function MergeGalleryItem(g: GalleryItem, u: GalleryPatch): GalleryItem {
    GalleryItem(u.id.GetOr(g.id), u.title.GetOr(g.title),
                u.category.GetOr(g.category), u.roomType.GetOr(g.roomType),
                u.imageUrl.GetOr(g.imageUrl), u.description.GetOr(g.description))
  }

  function MergeContent(c: ContentItem, u: ContentPatch): ContentItem {
    ContentItem(u.id.GetOr(c.id), u.kind.GetOr(c.kind), u.title.GetOr(c.title),
                u.content.GetOr(c.content),
                if u.imageUrl.Some? then u.imageUrl else c.imageUrl,
                if u.author.Some? then u.author else c.author,
                u.active.GetOr(c.active))
  }

  function MergeSettings(s: SiteSettings, u: SettingsPatch): SiteSettings {
    SiteSettings(u.businessName.GetOr(s.businessName), u.phone1.GetOr(s.phone1),
                 u.phone2.GetOr(s.phone2), u.email.GetOr(s.email),
                 u.address.GetOr(s.address), u.whatsappNumber.GetOr(s.whatsappNumber),
                 u.businessHours.GetOr(s.businessHours), u.metaTitle.GetOr(s.metaTitle),
                 u.metaDescription.GetOr(s.metaDescription))
  }

  /** `updateSettings` replaces exactly the fields the update carries. */
  lemma MergeSettingsFields(s: SiteSettings, u: SettingsPatch)
    ensures var r := MergeSettings(s, u);
      && (if u.businessName.Some? then r.businessName == u.businessName.value else r.businessName == s.businessName)
      && (if u.phone1.Some? then r.phone1 == u.phone1.value else r.phone1 == s.phone1)
      && (if u.phone2.Some? then r.phone2 == u.phone2.value else r.phone2 == s.phone2)
      && (if u.email.Some? then r.email == u.email.value else r.email == s.email)
      && (if u.address.Some? then r.address == u.address.value else r.address == s.address)
      && (if u.whatsappNumber.Some? then r.whatsappNumber == u.whatsappNumber.value else r.whatsappNumber == s.whatsappNumber)
      && (if u.businessHours.Some? then r.businessHours == u.businessHours.value else r.businessHours == s.businessHours)
      && (if u.metaTitle.Some? then r.metaTitle == u.metaTitle.value else r.metaTitle == s.metaTitle)
      && (if u.metaDescription.Some? then r.metaDescription == u.metaDescription.value else r.metaDescription == s.metaDescription)
  {
  }

  /** An update object with only `status` changes only the status. */
  function EnquiryStatusPatch(st: EnquiryStatus): EnquiryPatch {
    EnquiryPatch(None, None, None, None, None, None, Some(st), None, None)
  }

  lemma EnquiryStatusPatchOnlyStatus(e: Enquiry, st: EnquiryStatus)
    ensures MergeEnquiry(e, EnquiryStatusPatch(st)) == e.(status := st)
  {
  }

  // ---------------------------------------------------------------------
  // Merge-by-id and delete-by-id on an ordered collection
  // ---------------------------------------------------------------------

  /** `s.map(x => key(x) === id ? merge(x, u) : x)`. */
  function UpdateWhere<T, K(==), U>(s: seq<T>, key: T -> K, id: K, merge: (T, U) -> T, u: U): seq<T>
    decreases |s|
  {
    if s == [] then []
    else [if key(s[0]) == id then merge(s[0], u) else s[0]] + UpdateWhere(s[1..], key, id, merge, u)
  }

  /** Every record with the id is merged, every other record and the order stay. */
  lemma {:induction false} UpdateWhereAt<T, K, U>(s: seq<T>, key: T -> K, id: K, merge: (T, U) -> T, u: U)
    ensures |UpdateWhere(s, key, id, merge, u)| == |s|
    ensures forall i :: 0 <= i < |s| ==>
      UpdateWhere(s, key, id, merge, u)[i] == if key(s[i]) == id then merge(s[i], u) else s[i]
    decreases |s|
  {
    if s != [] {
      UpdateWhereAt(s[1..], key, id, merge, u);
    }
  }

  /** With no record carrying the id the collection is left identical. */
  lemma UpdateWhereMissing<T, K, U>(s: seq<T>, key: T -> K, id: K, merge: (T, U) -> T, u: U)
    requires forall i :: 0 <= i < |s| ==> key(s[i]) != id
    ensures UpdateWhere(s, key, id, merge, u) == s
  {
    UpdateWhereAt(s, key, id, merge, u);
  }

  /** `s.filter(x => key(x) !== id)`. */
  function Without<T, K(==)>(s: seq<T>, key: T -> K, id: K): seq<T> {
    Seqs.Filter(s, x => key(x) != id)
  }

  /**
   * Delete-by-id removes every record with the id, keeps exactly the others
   * in their order, and a second delete of the same id changes nothing.
   */
  lemma WithoutSpec<T, K>(s: seq<T>, key: T -> K, id: K)
    ensures forall x :: x in Without(s, key, id) <==> x in s && key(x) != id
    ensures Seqs.IsSubsequence(Without(s, key, id), s)
    ensures Without(Without(s, key, id), key, id) == Without(s, key, id)
  {
    forall x ensures x in Without(s, key, id) <==> x in s && key(x) != id {
      Seqs.FilterMembership(s, x => key(x) != id, x);
    }
    Seqs.FilterIsSubsequence(s, x => key(x) != id);
    Seqs.FilterIdempotent(s, x => key(x) != id);
  }

  /** Deleting an id that no record carries leaves the collection identical. */
  lemma WithoutMissing<T, K>(s: seq<T>, key: T -> K, id: K)
    requires forall i :: 0 <= i < |s| ==> key(s[i]) != id
    ensures Without(s, key, id) == s
  {
    Seqs.FilterAllPass(s, x => key(x) != id);
  }

  /** No two records of `s` share an id. */
  predicate UniqueIds<T, K(==)>(s: seq<T>, key: T -> K) {
    forall i, j :: 0 <= i < j < |s| ==> key(s[i]) != key(s[j])
  }

  /** When ids are unique, deleting a present id removes exactly one record. */
  lemma {:induction false} WithoutRemovesOne<T, K>(s: seq<T>, key: T -> K, id: K, k: nat)
    requires UniqueIds(s, key)
    requires k < |s| && key(s[k]) == id
    ensures |Without(s, key, id)| == |s| - 1
    decreases |s|
  {
    if k == 0 {
      assert forall i :: 0 <= i < |s[1..]| ==> key(s[1..][i]) != id by {
        forall i | 0 <= i < |s[1..]| ensures key(s[1..][i]) != id {
          assert s[1..][i] == s[i + 1];
        }
      }
      WithoutMissing(s[1..], key, id);
    } else {
      assert key(s[1..][k - 1]) == id;
      WithoutRemovesOne(s[1..], key, id, k - 1);
    }
  }

  // ---------------------------------------------------------------------
  // Listeners
  // ---------------------------------------------------------------------

  /** A listener's identity: re-adding the same callback finds it already present. */
  type ListenerId = nat

  /** What `subscribe` returns: calling it deletes that listener from the set. */
  datatype Subscription = Subscription(listener: ListenerId)

  predicate Distinct(ls: seq<ListenerId>) {
    forall i, j :: 0 <= i < j < |ls| ==> ls[i] != ls[j]
  }

  /** `Set.prototype.delete` on the insertion-ordered listener set. */
  function RemoveListener(ls: seq<ListenerId>, l: ListenerId): (r: seq<ListenerId>)
    ensures forall x :: x in r <==> x in ls && x != l
    ensures Distinct(ls) ==> Distinct(r)
    ensures l !in ls ==> r == ls
    decreases |ls|
  {
    if ls == [] then []
    else
      var rest := RemoveListener(ls[1..], l);
      assert Distinct(ls) ==> Distinct(ls[1..]) && ls[0] !in ls[1..] by {
        if Distinct(ls) {
          forall i, j | 0 <= i < j < |ls[1..]| ensures ls[1..][i] != ls[1..][j] {
            assert ls[1..][i] == ls[i + 1] && ls[1..][j] == ls[j + 1];
          }
        }
      }
      if ls[0] == l then rest else [ls[0]] + rest
  }

  /** Deleting a listener that was added last is the same as never having added it. */
  lemma {:induction false} RemoveListenerAppended(ls: seq<ListenerId>, l: ListenerId)
    ensures RemoveListener(ls + [l], l) == RemoveListener(ls, l)
    decreases |ls|
  {
    if ls == [] {
      assert RemoveListener([l], l) == RemoveListener([], l);
    } else {
      assert (ls + [l])[1..] == ls[1..] + [l];
      RemoveListenerAppended(ls[1..], l);
    }
  }

  /** The five pieces of data the store holds, as one value. */
  datatype Snapshot = Snapshot(
    enquiries: seq<Enquiry>, appointments: seq<Appointment>,
    gallery: seq<GalleryItem>, content: seq<ContentItem>, settings: SiteSettings)

  function EnquiryId(e: Enquiry): int { e.id }
  function AppointmentId(a: Appointment): int { a.id }
  function GalleryItemId(g: GalleryItem): int { g.id }
  function ContentId(c: ContentItem): string { c.id }

  /** The id `addContent` gives: the type, a dash, then the clock's decimal text. */
  function ContentIdFor(kind: ContentKind, now: nat): string {
    KindName(kind) + "-" + Text.NatToString(now)
  }

  /** A content id can be split back into the type and the clock reading it came from. */
  lemma ContentIdRoundTrip(kind: ContentKind, now: nat)
    ensures Text.BeforeFirst(ContentIdFor(kind, now), '-') == KindName(kind)
    ensures var tail := Text.AfterLast(ContentIdFor(kind, now), '-');
      (forall i :: 0 <= i < |tail| ==> Text.IsDigit(tail[i])) && Text.ParseNat(tail) == now
  {
    var digits := Text.NatToString(now);
    assert forall i :: 0 <= i < |digits| ==> digits[i] != '-';
    Text.BeforeFirstOfJoin(KindName(kind), '-', digits);
    Text.AfterLastOfJoin(KindName(kind), '-', digits);
    Text.ParseNatToString(now);
  }

  // ---------------------------------------------------------------------
  // The store
  // ---------------------------------------------------------------------

  class Store {
    var enquiries: seq<Enquiry>
    var appointments: seq<Appointment>
    var gallery: seq<GalleryItem>
    var content: seq<ContentItem>
    var settings: SiteSettings
    /** The listener `Set`, in insertion order, which is the order `forEach` visits. */
    var listeners: seq<ListenerId>
    /** Every listener invocation so far, oldest first. */
    ghost var calls: seq<ListenerId>

    ghost predicate Valid()
      reads this
    {
      Distinct(listeners)
    }

    function State(): Snapshot
      reads this
    {
      Snapshot(enquiries, appointments, gallery, content, settings)
    }

    /** Listeners are kept and each of them has just been called once, in order. */
    twostate predicate Notified()
      reads this
    {
      listeners == old(listeners) && calls == old(calls) + listeners
    }

    /** The store starts with the given data and no listeners. */
    constructor (enquiries0: seq<Enquiry>, appointments0: seq<Appointment>,
                 gallery0: seq<GalleryItem>, content0: seq<ContentItem>,
                 settings0: SiteSettings)
      ensures Valid()
      ensures State() == Snapshot(enquiries0, appointments0, gallery0, content0, settings0)
      ensures listeners == [] && calls == []
    {
      enquiries, appointments, gallery, content := enquiries0, appointments0, gallery0, content0;
      settings := settings0;
      listeners := [];
      calls := [];
    }

    /** `subscribe`: adds the listener to the set (once) and hands back its remover. */
    method Subscribe(l: ListenerId) returns (sub: Subscription)
      requires Valid()
      modifies this
      ensures Valid()
      ensures sub == Subscription(l)
      ensures listeners == if l in old(listeners) then old(listeners) else old(listeners) + [l]
      ensures State() == old(State()) && calls == old(calls)
    {
      if l !in listeners {
        listeners := listeners + [l];
      }
      sub := Subscription(l);
    }

    /** Calling the function `subscribe` returned: deletes its listener, if still present. */
    method Unsubscribe(sub: Subscription) returns (removed: bool)
      requires Valid()
      modifies this
      ensures Valid()
      ensures removed == (sub.listener in old(listeners))
      ensures listeners == RemoveListener(old(listeners), sub.listener)
      ensures sub.listener !in listeners
      ensures State() == old(State()) && calls == old(calls)
    {
      removed := sub.listener in listeners;
      listeners := RemoveListener(listeners, sub.listener);
    }

    /** `notify`: calls every registered listener once, in set order. */
    method Notify()
      modifies this`calls
      ensures calls == old(calls) + listeners
    {
      var i := 0;
      while i < |listeners|
        invariant 0 <= i <= |listeners|
        invariant calls == old(calls) + listeners[..i]
      {
        calls := calls + [listeners[i]];
        i := i + 1;
      }
      assert listeners[..i] == listeners;
    }

    method GetEnquiries() returns (r: seq<Enquiry>)
      ensures r == enquiries
    {
      r := enquiries;
    }

    method AddEnquiry(input: NewEnquiry, now: int, isoNow: string) returns (e: Enquiry)
      requires Valid()
      modifies this
      ensures Valid() && Notified()
      ensures e == Enquiry(now, input.name, input.phone, input.email, input.city,
                           input.requirement, New, Text.BeforeFirst(isoNow, 'T'), "")
      ensures State() == old(State()).(enquiries := [e] + old(enquiries))
    {
      e := Enquiry(now, input.name, input.phone, input.email, input.city,
                   input.requirement, New, Text.BeforeFirst(isoNow, 'T'), "");
      enquiries := [e] + enquiries;
      Notify();
    }

    method UpdateEnquiry(id: int, u: EnquiryPatch)
      requires Valid()
      modifies this
      ensures Valid() && Notified()
      ensures State() == old(State()).(enquiries := UpdateWhere(old(enquiries), EnquiryId, id, MergeEnquiry, u))
    {
      enquiries := UpdateWhere(enquiries, EnquiryId, id, MergeEnquiry, u);
      Notify();
    }

    method DeleteEnquiry(id: int)
      requires Valid()
      modifies this
      ensures Valid() && Notified()
      ensures State() == old(State()).(enquiries := Without(old(enquiries), EnquiryId, id))
    {
      enquiries := Without(enquiries, EnquiryId, id);
      Notify();
    }

    method GetAppointments() returns (r: seq<Appointment>)
      ensures r == appointments
    {
      r := appointments;
    }

    method AddAppointment(input: NewAppointment, now: int) returns (a: Appointment)
      requires Valid()
      modifies this
      ensures Valid() && Notified()
      ensures a == Appointment(now, input.enquiryId, input.customerName, input.phone,
                               input.address, input.city, input.date, input.time,
                               input.kind, input.status, input.notes)
      ensures State() == old(State()).(appointments := [a] + old(appointments))
    {
      a := Appointment(now, input.enquiryId, input.customerName, input.phone,
                       input.address, input.city, input.date, input.time,
                       input.kind, input.status, input.notes);
      appointments := [a] + appointments;
      Notify();
    }

    method UpdateAppointment(id: int, u: AppointmentPatch)
      requires Valid()
      modifies this
      ensures Valid() && Notified()
      ensures State() == old(State()).(appointments := UpdateWhere(old(appointments), AppointmentId, id, MergeAppointment, u))
    {
      appointments := UpdateWhere(appointments, AppointmentId, id, MergeAppointment, u);
      Notify();
    }

    method DeleteAppointment(id: int)
      requires Valid()
      modifies this
      ensures Valid() && Notified()
      ensures State() == old(State()).(appointments := Without(old(appointments), AppointmentId, id))
    {
      appointments := Without(appointments, AppointmentId, id);
      Notify();
    }

    method GetGallery() returns (r: seq<GalleryItem>)
      ensures r == gallery
    {
      r := gallery;
    }

    method AddGalleryItem(input: NewGalleryItem, now: int) returns (g: GalleryItem)
      requires Valid()
      modifies this
      ensures Valid() && Notified()
      ensures g == GalleryItem(now, input.title, input.category, input.roomType,
                               input.imageUrl, input.description)
      ensures State() == old(State()).(gallery := [g] + old(gallery))
    {
      g := GalleryItem(now, input.title, input.category, input.roomType,
                       input.imageUrl, input.description);
      gallery := [g] + gallery;
      Notify();
    }

    method UpdateGalleryItem(id: int, u: GalleryPatch)
      requires Valid()
      modifies this
      ensures Valid() && Notified()
      ensures State() == old(State()).(gallery := UpdateWhere(old(gallery), GalleryItemId, id, MergeGalleryItem, u))
    {
      gallery := UpdateWhere(gallery, GalleryItemId, id, MergeGalleryItem, u);
      Notify();
    }

    method DeleteGalleryItem(id: int)
      requires Valid()
      modifies this
      ensures Valid() && Notified()
      ensures State() == old(State()).(gallery := Without(old(gallery), GalleryItemId, id))
    {
      gallery := Without(gallery, GalleryItemId, id);
      Notify();
    }

    method GetContent() returns (r: seq<ContentItem>)
      ensures r == content
    {
      r := content;
    }

    method UpdateContent(id: string, u: ContentPatch)
      requires Valid()
      modifies this
      ensures Valid() && Notified()
      ensures State() == old(State()).(content := UpdateWhere(old(content), ContentId, id, MergeContent, u))
    {
      content := UpdateWhere(content, ContentId, id, MergeContent, u);
      Notify();
    }

    /** Unlike the other adds, `addContent` appends, and derives the id from the type. */
    method AddContent(input: NewContent, now: nat) returns (c: ContentItem)
      requires Valid()
      modifies this
      ensures Valid() && Notified()
      ensures c == ContentItem(ContentIdFor(input.kind, now), input.kind, input.title,
                               input.content, input.imageUrl, input.author, input.active)
      ensures State() == old(State()).(content := old(content) + [c])
    {
      c := ContentItem(ContentIdFor(input.kind, now), input.kind, input.title,
                       input.content, input.imageUrl, input.author, input.active);
      content := content + [c];
      Notify();
    }

    method DeleteContent(id: string)
      requires Valid()
      modifies this
      ensures Valid() && Notified()
      ensures State() == old(State()).(content := Without(old(content), ContentId, id))
    {
      content := Without(content, ContentId, id);
      Notify();
    }

    method GetSettings() returns (r: SiteSettings)
      ensures r == settings
    {
      r := settings;
    }

    method UpdateSettings(u: SettingsPatch)
      requires Valid()
      modifies this
      ensures Valid() && Notified()
      ensures State() == old(State()).(settings := MergeSettings(old(settings), u))
    {
      settings := MergeSettings(settings, u);
      Notify();
    }
  }

  /**
   * A listener removed through its subscription is not called by later
   * mutations, while every listener still registered is called once.
   */
  method UnsubscribedListenerIsNotCalled(s: Store, l: ListenerId, id: int)
    requires s.Valid()
    modifies s
    ensures s.Valid()
    ensures s.calls == old(s.calls) + RemoveListener(old(s.listeners), l)
    ensures l !in RemoveListener(old(s.listeners), l)
  {
    var sub := s.Subscribe(l);
    var removed := s.Unsubscribe(sub);
    RemoveListenerAppended(old(s.listeners), l);
    s.DeleteEnquiry(id);
  }

  /** Two adds show newest first: adding A then B gives B, A, then the old enquiries. */
  method AddsShowNewestFirst(s: Store, a: NewEnquiry, b: NewEnquiry, t1: int, t2: int, iso: string)
    requires s.Valid()
    modifies s
    ensures s.Valid()
    ensures |s.enquiries| == |old(s.enquiries)| + 2
    ensures s.enquiries[0] == Enquiry(t2, b.name, b.phone, b.email, b.city, b.requirement,
                                      New, Text.BeforeFirst(iso, 'T'), "")
    ensures s.enquiries[1] == Enquiry(t1, a.name, a.phone, a.email, a.city, a.requirement,
                                      New, Text.BeforeFirst(iso, 'T'), "")
    ensures s.enquiries[2..] == old(s.enquiries)
  {
    var ea := s.AddEnquiry(a, t1, iso);
    var eb := s.AddEnquiry(b, t2, iso);
  }
}
