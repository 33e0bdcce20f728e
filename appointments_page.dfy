/** The admin appointments page: its search and filters, its statistics and its form actions. */
module AppointmentsPage {
  import opened Wrappers
  import Text
  import Seqs
  import opened Store

  // ---------------------------------------------------------------------
  // Listing
  // ---------------------------------------------------------------------

  /**
   * The row predicate: the query occurs, ignoring case, in the customer's
   * name or city; `None` stands for the `all` choice of a selector.
   */
  predicate Matches(query: string, status: Option<AppointmentStatus>,
                    kind: Option<AppointmentKind>, a: Appointment)
  {
    && (Text.ContainsIgnoreCase(a.customerName, query) || Text.ContainsIgnoreCase(a.city, query))
    && (status.None? || a.status == status.value)
    && (kind.None? || a.kind == kind.value)
  }

  function Filtered(s: seq<Appointment>, query: string, status: Option<AppointmentStatus>,
                    kind: Option<AppointmentKind>): seq<Appointment>
  {
    Seqs.Filter(s, a => Matches(query, status, kind, a))
  }

  /** The table shows exactly the matching appointments, in store order. */
  lemma FilteredSpec(s: seq<Appointment>, query: string, status: Option<AppointmentStatus>,
                     kind: Option<AppointmentKind>)
    ensures forall a :: a in Filtered(s, query, status, kind) <==> a in s && Matches(query, status, kind, a)
    ensures Seqs.IsSubsequence(Filtered(s, query, status, kind), s)
  {
    var p := a => Matches(query, status, kind, a);
    forall a ensures a in Seqs.Filter(s, p) <==> a in s && p(a) {
      Seqs.FilterMembership(s, p, a);
    }
    Seqs.FilterIsSubsequence(s, p);
  }

  /** With an empty search and both selectors on `all`, every appointment is shown. */
  lemma UnfilteredShowsAll(s: seq<Appointment>)
    ensures Filtered(s, "", None, None) == s
  {
    forall i | 0 <= i < |s| ensures Matches("", None, None, s[i]) {
      Text.ContainsIgnoreCaseEmpty(s[i].customerName);
    }
    Seqs.FilterAllPass(s, a => Matches("", None, None, a));
  }

  /** Applying the same filters to the filtered table changes nothing. */
  lemma FilteredIdempotent(s: seq<Appointment>, query: string, status: Option<AppointmentStatus>,
                           kind: Option<AppointmentKind>)
    ensures Filtered(Filtered(s, query, status, kind), query, status, kind) == Filtered(s, query, status, kind)
  {
    Seqs.FilterIdempotent(s, a => Matches(query, status, kind, a));
  }

  // ---------------------------------------------------------------------
  // Statistics
  // ---------------------------------------------------------------------

  function StatusIs(st: AppointmentStatus): Appointment -> bool {
    (a: Appointment) => a.status == st
  }

  function CountStatus(s: seq<Appointment>, st: AppointmentStatus): nat {
    |Seqs.Filter(s, StatusIs(st))|
  }

  datatype Stats = Stats(scheduled: nat, completed: nat, cancelled: nat)

  /** The three cards count the whole store, ignoring the filters. */
  function StatsOf(s: seq<Appointment>): (r: Stats)
    ensures r.scheduled + r.completed + r.cancelled <= |s|
  {
    Seqs.FilterCounts3(s, StatusIs(Scheduled), StatusIs(Completed), StatusIs(Cancelled));
    Stats(CountStatus(s, Scheduled), CountStatus(s, Completed), CountStatus(s, Cancelled))
  }

  /** Rescheduled appointments are what the three cards leave uncounted. */
  lemma {:induction false} StatsMissRescheduled(s: seq<Appointment>)
    ensures StatsOf(s).scheduled + StatsOf(s).completed + StatsOf(s).cancelled
            + CountStatus(s, Rescheduled) == |s|
    decreases |s|
  {
    if s != [] {
      StatsMissRescheduled(s[1..]);
    }
  }

  // ---------------------------------------------------------------------
  // The form
  // ---------------------------------------------------------------------

  datatype Form = Form(
    customerName: string, phone: string, address: string, city: string,
    date: string, time: string, kind: AppointmentKind, status: AppointmentStatus,
    notes: string)

  /** `handleAdd`: a blank consultation, scheduled. */
  function BlankForm(): (f: Form)
    ensures !CanSave(f)
  {
    Form("", "", "", "", "", "", Consultation, Scheduled, "")
  }

  /** `handleEdit`: the form starts from the appointment's own values. */
  function EditForm(a: Appointment): Form {
    Form(a.customerName, a.phone, a.address, a.city, a.date, a.time, a.kind, a.status, a.notes)
  }

  /** Name, phone, date and time are required; address and city are not. */
  predicate CanSave(f: Form) {
    f.customerName != "" && f.phone != "" && f.date != "" && f.time != ""
  }

  /** The address and city, though labelled required, do not affect whether the form saves. */
  lemma AddressAndCityUnchecked(f: Form, address: string, city: string)
    ensures CanSave(f.(address := address, city := city)) == CanSave(f)
    ensures CanSave(f) <==> f.customerName != "" && f.phone != "" && f.date != "" && f.time != ""
  {
  }

  /** The update object the form sends: every form field, but neither id nor enquiry link. */
  function FormPatch(f: Form): (u: AppointmentPatch)
    ensures u.id.None? && u.enquiryId.None?
  {
    AppointmentPatch(None, None, Some(f.customerName), Some(f.phone), Some(f.address),
                     Some(f.city), Some(f.date), Some(f.time), Some(f.kind),
                     Some(f.status), Some(f.notes))
  }

  function FormInput(f: Form): NewAppointment {
    NewAppointment(None, f.customerName, f.phone, f.address, f.city, f.date, f.time,
                   f.kind, f.status, f.notes)
  }

  /** Opening an appointment for editing and saving it untouched leaves it as it was. */
  lemma EditSaveRoundTrip(a: Appointment)
    ensures MergeAppointment(a, FormPatch(EditForm(a))) == a
  {
  }

  /**
   * The edit form of an appointment passes the guard exactly when the
   * appointment has a name, phone, date and time, so an appointment saved
   * from a form that passed it can always be opened and saved again.
   */
  lemma EditFormSaveable(a: Appointment, f: Form)
    ensures CanSave(EditForm(a)) <==> a.customerName != "" && a.phone != "" && a.date != "" && a.time != ""
    ensures CanSave(f) ==> CanSave(EditForm(MergeAppointment(a, FormPatch(f))))
  {
  }

  const REQUIRED_TOAST := "Please fill in all required fields"

  /**
   * `handleSave`: an incomplete form is refused and the store is not
   * touched; otherwise the edited appointment is updated, or a new one is
   * added with the clock's id.
   */
  method HandleSave(s: Store, editing: Option<Appointment>, f: Form, now: int) returns (toast: string)
    requires s.Valid()
    modifies s
    ensures s.Valid()
    ensures !CanSave(f) ==>
      toast == REQUIRED_TOAST && s.State() == old(s.State()) && s.calls == old(s.calls)
    ensures CanSave(f) && editing.Some? ==>
      && toast == "Appointment updated successfully"
      && s.State() == old(s.State()).(appointments :=
           UpdateWhere(old(s.appointments), AppointmentId, editing.value.id, MergeAppointment, FormPatch(f)))
      && s.calls == old(s.calls) + s.listeners
    ensures CanSave(f) && editing.None? ==>
      && toast == "Appointment scheduled successfully"
      && s.State() == old(s.State()).(appointments :=
           [Appointment(now, None, f.customerName, f.phone, f.address, f.city, f.date,
                        f.time, f.kind, f.status, f.notes)] + old(s.appointments))
      && s.calls == old(s.calls) + s.listeners
    ensures s.listeners == old(s.listeners)
  {
    if !CanSave(f) {
      return REQUIRED_TOAST;
    }
    if editing.Some? {
      s.UpdateAppointment(editing.value.id, FormPatch(f));
      toast := "Appointment updated successfully";
    } else {
      var _ := s.AddAppointment(FormInput(f), now);
      toast := "Appointment scheduled successfully";
    }
  }

  function StatusPatch(st: AppointmentStatus): AppointmentPatch {
    AppointmentPatch(None, None, None, None, None, None, None, None, None, Some(st), None)
  }

  /** The row menu's patch changes the status and nothing else. */
  lemma StatusPatchOnlyStatus(a: Appointment, st: AppointmentStatus)
    ensures MergeAppointment(a, StatusPatch(st)) == a.(status := st)
  {
  }

  /** `handleStatusChange`: marks one appointment with the chosen status. */
  method HandleStatusChange(s: Store, a: Appointment, st: AppointmentStatus)
    requires s.Valid()
    modifies s
    ensures s.Valid() && s.listeners == old(s.listeners) && s.calls == old(s.calls) + s.listeners
    ensures s.State() == old(s.State()).(appointments :=
      UpdateWhere(old(s.appointments), AppointmentId, a.id, MergeAppointment, StatusPatch(st)))
  {
    s.UpdateAppointment(a.id, StatusPatch(st));
  }

  /** `handleDelete`: deletes the appointment the confirmation dialog holds, if any. */
  method HandleDelete(s: Store, deleting: Option<Appointment>)
    requires s.Valid()
    modifies s
    ensures s.Valid() && s.listeners == old(s.listeners)
    ensures deleting.None? ==> s.State() == old(s.State()) && s.calls == old(s.calls)
    ensures deleting.Some? ==>
      && s.State() == old(s.State()).(appointments :=
           Without(old(s.appointments), AppointmentId, deleting.value.id))
      && s.calls == old(s.calls) + s.listeners
  {
    if deleting.Some? {
      s.DeleteAppointment(deleting.value.id);
    }
  }
}
