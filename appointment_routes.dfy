/** The decision rules of the `/appointments` REST handlers. */
module AppointmentRoutes {
  import opened Wrappers
  import opened Http
  import Text

  /** The statuses the appointment schema accepts. */
  datatype AppointmentStatus = Pending | Confirmed | Completed | Cancelled

  function StatusName(s: AppointmentStatus): string {
    match s
    case Pending => "pending"
    case Confirmed => "confirmed"
    case Completed => "completed"
    case Cancelled => "cancelled"
  }

  /** The schema's enum check: the status a string names, if any. */
  function ParseStatus(s: string): (r: Option<AppointmentStatus>)
    ensures r.Some? ==> StatusName(r.value) == s
    ensures r.None? ==> forall st :: StatusName(st) != s
  {
    if s == "pending" then Some(Pending)
    else if s == "confirmed" then Some(Confirmed)
    else if s == "completed" then Some(Completed)
    else if s == "cancelled" then Some(Cancelled)
    else None
  }

  /** A stored appointment; `date` is the booked instant in milliseconds. */
  datatype Appointment = Appointment(
    name: string, phone: string, email: Option<string>, date: int, time: string,
    address: string, city: string, requirement: string,
    status: AppointmentStatus, notes: Option<string>, createdAt: int)

  type AppointmentDb = map<Id, Appointment>

  /**
   * `new Date(text)`: the instant a date text stands for, or `None` for an
   * Invalid Date. The parser itself is the runtime's and is a parameter here.
   */
  type DateParser = string -> Option<int>

  // ---------------------------------------------------------------------
  // POST /
  // ---------------------------------------------------------------------

  datatype BookingForm = BookingForm(
    name: Field, phone: Field, email: Field, date: Field, time: Field,
    address: Field, city: Field, requirement: Field)

  /** All seven required fields are present and non-empty; email is optional. */
  predicate HasRequired(b: BookingForm) {
    && Truthy(b.name) && Truthy(b.phone) && Truthy(b.date) && Truthy(b.time)
    && Truthy(b.address) && Truthy(b.city) && Truthy(b.requirement)
  }

  /**
   * `POST /` (public): 400 and nothing booked unless all seven fields are
   * given; a date the runtime cannot parse fails the save with 500.
   * Otherwise a `pending` appointment with the form's fields, an empty email
   * stored as absent, and no notes.
   */
  function Book(db: AppointmentDb, body: BookingForm, parseDate: DateParser, newId: Id, now: int)
    : (r: Handled<(string, Appointment), AppointmentDb>)
    requires newId !in db
    ensures r.destroyed == []
    ensures !HasRequired(body) ==>
      r.response == Error(BAD_REQUEST, "Name, phone, date, time, address, city, and requirement are required")
      && r.db == db
    ensures HasRequired(body) && parseDate(body.date.value).None? ==>
      r.response == Error(SERVER_ERROR, "Failed to book appointment") && r.db == db
    ensures HasRequired(body) && parseDate(body.date.value).Some? ==>
      && r.response.Body? && r.response.code == CREATED
      && r.response.value.0 == "Appointment booked successfully"
      && var a := r.response.value.1;
      && r.db == db[newId := a]
      && a.status == Pending && a.notes == None && a.createdAt == now
      && a.date == parseDate(body.date.value).value
      && a.name == body.name.value && a.phone == body.phone.value && a.time == body.time.value
      && a.address == body.address.value && a.city == body.city.value
      && a.requirement == body.requirement.value
      && a.email == (if Truthy(body.email) then body.email else None)
  {
    if !HasRequired(body) then
      Handled(Error(BAD_REQUEST, "Name, phone, date, time, address, city, and requirement are required"), db, [])
    else
      var date := parseDate(body.date.value);
      if date.None? then Handled(Error(SERVER_ERROR, "Failed to book appointment"), db, [])
      else
        var a := Appointment(body.name.value, body.phone.value,
                             if Truthy(body.email) then body.email else None,
                             date.value, body.time.value, body.address.value, body.city.value,
                             body.requirement.value, Pending, None, now);
        Handled(Body(CREATED, ("Appointment booked successfully", a)), db[newId := a], [])
  }

  // ---------------------------------------------------------------------
  // GET /
  // ---------------------------------------------------------------------

  /** One day, the width of the date window (`setDate(getDate() + 1)`). */
  const DAY_MS: int := 86_400_000

  datatype AppointmentQuery = AppointmentQuery(status: Field, search: Field, date: Field)

  /** The query object: a status, the start of a one-day window, a search text. */
  datatype AppointmentFilter = AppointmentFilter(
    status: Option<string>, dayStart: Option<int>, search: Option<string>)

  predicate SearchHit(a: Appointment, q: string) {
    || Text.ContainsIgnoreCase(a.name, q)
    || Text.ContainsIgnoreCase(a.phone, q)
    || (a.email.Some? && Text.ContainsIgnoreCase(a.email.value, q))
  }

  /** `{ $gte: start, $lt: start + 1 day }`: a half-open window. */
  predicate InDay(a: Appointment, start: int) {
    start <= a.date < start + DAY_MS
  }

  predicate Matches(f: AppointmentFilter, a: Appointment) {
    && (f.status.Some? ==> StatusName(a.status) == f.status.value)
    && (f.dayStart.Some? ==> InDay(a, f.dayStart.value))
    && (f.search.Some? ==> SearchHit(a, f.search.value))
  }

  /**
   * Builds the list filter step by step. `None` stands for a date text the
   * database cannot cast, which makes the handler answer 500.
   */
  method ListFilter(q: AppointmentQuery, parseDate: DateParser) returns (f: Option<AppointmentFilter>)
    ensures f.None? <==> Truthy(q.date) && parseDate(q.date.value).None?
    ensures f.Some? ==> forall a :: Matches(f.value, a) <==>
      && (Truthy(q.status) && q.status.value != "all" ==> StatusName(a.status) == q.status.value)
      && (Truthy(q.date) ==> InDay(a, parseDate(q.date.value).value))
      && (Truthy(q.search) ==> SearchHit(a, q.search.value))
  {
    var filter := AppointmentFilter(None, None, None);
    if Truthy(q.status) && q.status.value != "all" {
      filter := filter.(status := q.status);
    }
    if Truthy(q.date) {
      var start := parseDate(q.date.value);
      if start.None? {
        return None;
      }
      filter := filter.(dayStart := Some(start.value));
    }
    if Truthy(q.search) {
      filter := filter.(search := q.search);
    }
    f := Some(filter);
  }

  /** The window holds the start instant but not the same instant a day later. */
  lemma DayWindowHalfOpen(a: Appointment, start: int)
    ensures a.date == start ==> InDay(a, start)
    ensures a.date == start + DAY_MS ==> !InDay(a, start)
    ensures InDay(a, start) ==> !InDay(a, start + DAY_MS)
  {
  }

  /** `sort({ date: 1, time: 1 })`: earlier date first, then earlier time text. */
  predicate EarlierSlot(a: Appointment, b: Appointment) {
    a.date < b.date || (a.date == b.date && Text.StrLessEq(a.time, b.time))
  }

  /** Any two appointments can be placed in slot order, and that order is transitive. */
  lemma EarlierSlotIsTotalPreorder(a: Appointment, b: Appointment, c: Appointment)
    ensures EarlierSlot(a, b) || EarlierSlot(b, a)
    ensures EarlierSlot(a, b) && EarlierSlot(b, c) ==> EarlierSlot(a, c)
  {
    Text.StrLessEqTotal(a.time, b.time);
    if EarlierSlot(a, b) && EarlierSlot(b, c) && a.date == b.date == c.date {
      Text.StrLessEqTransitive(a.time, b.time, c.time);
    }
  }

  ghost predicate IsAppointmentListing(db: AppointmentDb, f: AppointmentFilter, out: seq<Id>) {
    IsListing(db, a => Matches(f, a), EarlierSlot, out)
  }

  /** Every appointment a date-filtered listing shows lies inside that day. */
  lemma DateListingInWindow(db: AppointmentDb, f: AppointmentFilter, out: seq<Id>, i: nat)
    requires f.dayStart.Some? && IsAppointmentListing(db, f, out) && i < |out|
    ensures f.dayStart.value <= db[out[i]].date < f.dayStart.value + DAY_MS
  {
    assert Matches(f, db[out[i]]);
  }

  // ---------------------------------------------------------------------
  // PATCH /:id/status and DELETE /:id
  // ---------------------------------------------------------------------

  datatype StatusForm = StatusForm(status: Field, notes: Field)

  /**
   * `PATCH /:id/status`: 404 for a missing id; `status` only when truthy,
   * `notes` whenever sent; a status outside the schema's list fails with 500.
   */
  function UpdateStatus(db: AppointmentDb, id: Id, body: StatusForm): (r: Handled<Appointment, AppointmentDb>)
    ensures r.destroyed == []
    ensures id !in db ==> r.response == Error(NOT_FOUND, "Appointment not found") && r.db == db
    ensures id in db && Truthy(body.status) && ParseStatus(body.status.value).None? ==>
      r.response == Error(SERVER_ERROR, "Failed to update appointment") && r.db == db
    ensures id in db && !(Truthy(body.status) && ParseStatus(body.status.value).None?) ==>
      var a := db[id];
      var a' := a.(status := if Truthy(body.status) then ParseStatus(body.status.value).value else a.status,
                   notes := if body.notes.Some? then body.notes else a.notes);
      r.response == Body(OK, a') && r.db == db[id := a']
  {
    if id !in db then Handled(Error(NOT_FOUND, "Appointment not found"), db, [])
    else
      var a := db[id];
      var status := if Truthy(body.status) then ParseStatus(body.status.value) else Some(a.status);
      if status.None? then Handled(Error(SERVER_ERROR, "Failed to update appointment"), db, [])
      else
        var a' := a.(status := status.value, notes := if body.notes.Some? then body.notes else a.notes);
        Handled(Body(OK, a'), db[id := a'], [])
  }

  function Delete(db: AppointmentDb, id: Id): (r: Handled<Appointment, AppointmentDb>)
    ensures r.destroyed == []
    ensures id !in db ==> r.response == Error(NOT_FOUND, "Appointment not found") && r.db == db
    ensures id in db ==> r.response == Message(OK, "Appointment deleted successfully") && r.db == db - {id}
  {
    if id !in db then Handled(Error(NOT_FOUND, "Appointment not found"), db, [])
    else Handled(Message(OK, "Appointment deleted successfully"), db - {id}, [])
  }
}
