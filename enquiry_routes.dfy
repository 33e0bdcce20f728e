/** The decision rules of the `/enquiries` REST handlers. */
module EnquiryRoutes {
  import opened Wrappers
  import opened Http
  import Text

  /** The statuses the enquiry schema accepts. */
  datatype EnquiryStatus = New | Contacted | Qualified | Converted | Closed

  function StatusName(s: EnquiryStatus): string {
    match s
    case New => "new"
    case Contacted => "contacted"
    case Qualified => "qualified"
    case Converted => "converted"
    case Closed => "closed"
  }

  /** The schema's enum check: the status a string names, if any. */
  function ParseStatus(s: string): (r: Option<EnquiryStatus>)
    ensures r.Some? ==> StatusName(r.value) == s
    ensures r.None? ==> forall st :: StatusName(st) != s
  {
    if s == "new" then Some(New)
    else if s == "contacted" then Some(Contacted)
    else if s == "qualified" then Some(Qualified)
    else if s == "converted" then Some(Converted)
    else if s == "closed" then Some(Closed)
    else None
  }

  datatype Enquiry = Enquiry(
    name: string, phone: string, email: Option<string>, city: string,
    requirement: string, status: EnquiryStatus, notes: Option<string>, createdAt: int)

  type EnquiryDb = map<Id, Enquiry>

  // ---------------------------------------------------------------------
  // POST /
  // ---------------------------------------------------------------------

  datatype EnquiryForm = EnquiryForm(name: Field, phone: Field, email: Field, city: Field, requirement: Field)

  predicate HasRequired(body: EnquiryForm) {
    Truthy(body.name) && Truthy(body.phone) && Truthy(body.city) && Truthy(body.requirement)
  }

  /**
   * `POST /` (public): 400 and nothing created unless name, phone, city and
   * requirement are all given; otherwise a `new` enquiry with those fields,
   * an empty email stored as absent, and no notes.
   */
  function Submit(db: EnquiryDb, body: EnquiryForm, newId: Id, now: int)
    : (r: Handled<(string, Enquiry), EnquiryDb>)
    requires newId !in db
    ensures r.destroyed == []
    ensures !HasRequired(body) ==>
      r.response == Error(BAD_REQUEST, "Name, phone, city, and requirement are required") && r.db == db
    ensures HasRequired(body) ==>
      && r.response.Body? && r.response.code == CREATED
      && r.response.value.0 == "Enquiry submitted successfully"
      && var e := r.response.value.1;
      && r.db == db[newId := e]
      && e.status == New && e.notes == None && e.createdAt == now
      && e.name == body.name.value && e.phone == body.phone.value
      && e.city == body.city.value && e.requirement == body.requirement.value
      && e.email == (if Truthy(body.email) then body.email else None)
  {
    if !HasRequired(body) then
      Handled(Error(BAD_REQUEST, "Name, phone, city, and requirement are required"), db, [])
    else
      var e := Enquiry(body.name.value, body.phone.value,
                       if Truthy(body.email) then body.email else None,
                       body.city.value, body.requirement.value, New, None, now);
      Handled(Body(CREATED, ("Enquiry submitted successfully", e)), db[newId := e], [])
  }

  // ---------------------------------------------------------------------
  // GET /
  // ---------------------------------------------------------------------

  datatype EnquiryQuery = EnquiryQuery(status: Field, search: Field)

  /** The query object: a status to equal and a text for the `$or` search. */
  datatype EnquiryFilter = EnquiryFilter(status: Option<string>, search: Option<string>)

  /** The `$or` of case-insensitive matches on name, phone and email; no email never matches. */
  predicate SearchHit(e: Enquiry, q: string) {
    || Text.ContainsIgnoreCase(e.name, q)
    || Text.ContainsIgnoreCase(e.phone, q)
    || (e.email.Some? && Text.ContainsIgnoreCase(e.email.value, q))
  }

  predicate Matches(f: EnquiryFilter, e: Enquiry) {
    && (f.status.Some? ==> StatusName(e.status) == f.status.value)
    && (f.search.Some? ==> SearchHit(e, f.search.value))
  }

  /**
   * Builds the list filter: a status other than `all` must match exactly,
   * and a search must hit one of name, phone or email.
   */
  method ListFilter(q: EnquiryQuery) returns (f: EnquiryFilter)
    ensures forall e :: Matches(f, e) <==>
      && (Truthy(q.status) && q.status.value != "all" ==> StatusName(e.status) == q.status.value)
      && (Truthy(q.search) ==> SearchHit(e, q.search.value))
  {
    f := EnquiryFilter(None, None);
    if Truthy(q.status) && q.status.value != "all" {
      f := f.(status := q.status);
    }
    if Truthy(q.search) {
      f := f.(search := q.search);
    }
  }

  /** `sort({ createdAt: -1 })`. */
  predicate NewestFirst(a: Enquiry, b: Enquiry) {
    a.createdAt >= b.createdAt
  }

  ghost predicate IsEnquiryListing(db: EnquiryDb, f: EnquiryFilter, out: seq<Id>) {
    IsListing(db, e => Matches(f, e), NewestFirst, out)
  }

  /** With no status and no search every stored enquiry is listed. */
  lemma UnfilteredListingIsEverything(db: EnquiryDb, out: seq<Id>)
    requires IsEnquiryListing(db, EnquiryFilter(None, None), out)
    ensures forall id :: id in out <==> id in db
  {
    forall id ensures id in out <==> id in db {
      if id in db {
        assert Matches(EnquiryFilter(None, None), db[id]);
      }
    }
  }

  // ---------------------------------------------------------------------
  // PATCH /:id/status
  // ---------------------------------------------------------------------

  datatype StatusForm = StatusForm(status: Field, notes: Field)

  /**
   * `PATCH /:id/status`: 404 for a missing id. Otherwise `status` is set
   * only when truthy, `notes` whenever sent (even empty), and nothing else
   * changes; a status outside the schema's list makes the save fail with
   * 500 and leaves the enquiry as it was.
   */
  function UpdateStatus(db: EnquiryDb, id: Id, body: StatusForm): (r: Handled<Enquiry, EnquiryDb>)
    ensures r.destroyed == []
    ensures id !in db ==> r.response == Error(NOT_FOUND, "Enquiry not found") && r.db == db
    ensures id in db && Truthy(body.status) && ParseStatus(body.status.value).None? ==>
      r.response == Error(SERVER_ERROR, "Failed to update enquiry") && r.db == db
    ensures id in db && !(Truthy(body.status) && ParseStatus(body.status.value).None?) ==>
      var e := db[id];
      var e' := e.(status := if Truthy(body.status) then ParseStatus(body.status.value).value else e.status,
                   notes := if body.notes.Some? then body.notes else e.notes);
      r.response == Body(OK, e') && r.db == db[id := e']
  {
    if id !in db then Handled(Error(NOT_FOUND, "Enquiry not found"), db, [])
    else
      var e := db[id];
      var status := if Truthy(body.status) then ParseStatus(body.status.value) else Some(e.status);
      if status.None? then Handled(Error(SERVER_ERROR, "Failed to update enquiry"), db, [])
      else
        var e' := e.(status := status.value, notes := if body.notes.Some? then body.notes else e.notes);
        Handled(Body(OK, e'), db[id := e'], [])
  }

  /** A status update never touches the contact fields or another enquiry. */
  lemma UpdateStatusKeepsOthers(db: EnquiryDb, id: Id, body: StatusForm, other: Id)
    requires id in db
    ensures var r := UpdateStatus(db, id, body);
      && id in r.db && r.db.Keys == db.Keys
      && r.db[id].name == db[id].name && r.db[id].phone == db[id].phone
      && r.db[id].email == db[id].email && r.db[id].city == db[id].city
      && r.db[id].requirement == db[id].requirement && r.db[id].createdAt == db[id].createdAt
      && (other != id && other in db ==> r.db[other] == db[other])
  {
  }

  // ---------------------------------------------------------------------
  // DELETE /:id
  // ---------------------------------------------------------------------

  function Delete(db: EnquiryDb, id: Id): (r: Handled<Enquiry, EnquiryDb>)
    ensures r.destroyed == []
    ensures id !in db ==> r.response == Error(NOT_FOUND, "Enquiry not found") && r.db == db
    ensures id in db ==> r.response == Message(OK, "Enquiry deleted successfully") && r.db == db - {id}
  {
    if id !in db then Handled(Error(NOT_FOUND, "Enquiry not found"), db, [])
    else Handled(Message(OK, "Enquiry deleted successfully"), db - {id}, [])
  }
}
