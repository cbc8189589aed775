/** The patient's appointment page: whose appointments are listed, the upcoming
    and past tabs with their counts, and the cancel request. */
module MyAppointments {
  import opened Base
  import opened Entities
  import opened Text
  import opened Seqs
  import Appointments

  /** `apt.patient?.name?.toLowerCase() === username.toLowerCase()` */
  predicate OwnAppointment(a: Appointment, username: string) {
    PatientNameOf(a).Some? && EqualsIgnoreCase(PatientNameOf(a).value, username)
  }

  function OwnBy(username: string): Appointment -> bool {
    a => OwnAppointment(a, username)
  }

  /** `loadAppointments`: a PATIENT session with a username sees the appointments
      whose patient name equals the username ignoring case; any other session
      sees them all. */
  function Listed(role: Option<Role>, username: Option<string>, all: seq<Appointment>): (r: seq<Appointment>)
    ensures SubseqOf(r, all)
    ensures role == Some(PATIENT) && Truthy(username) ==> forall a :: a in r <==> a in all && OwnAppointment(a, username.value)
    ensures !(role == Some(PATIENT) && Truthy(username)) ==> r == all
  {
    if role == Some(PATIENT) && Truthy(username) then
      FilterSubseq(OwnBy(username.value), all);
      Filter(OwnBy(username.value), all)
    else
      SubseqRefl(all);
      all
  }

  /** `new Date(apt.appointmentDate) >= now && apt.status !== 'CANCELLED'`; a
      missing date is the epoch. */
  predicate IsUpcoming(a: Appointment, now: int) {
    OrZero(a.appointmentDate) >= now && a.status != Some(AppointmentStatus.CANCELLED)
  }

  /** Before now, or cancelled, or completed. */
  predicate IsPast(a: Appointment, now: int) {
    OrZero(a.appointmentDate) < now || a.status == Some(AppointmentStatus.CANCELLED) || a.status == Some(COMPLETED)
  }

  function UpcomingBy(now: int): Appointment -> bool { a => IsUpcoming(a, now) }
  function PastBy(now: int): Appointment -> bool { a => IsPast(a, now) }

  datatype Tab = Upcoming | Past

  /** `filterAppointments` for the active tab. */
  function TabList(appointments: seq<Appointment>, tab: Tab, now: int): (r: seq<Appointment>)
    ensures SubseqOf(r, appointments)
    ensures tab == Upcoming ==> forall a :: a in r <==> a in appointments && IsUpcoming(a, now)
    ensures tab == Past ==> forall a :: a in r <==> a in appointments && IsPast(a, now)
  {
    var p := if tab == Upcoming then UpcomingBy(now) else PastBy(now);
    FilterSubseq(p, appointments);
    Filter(p, appointments)
  }

  /** The counts in the tab labels, each with its own copy of the predicate. */
  function UpcomingCount(appointments: seq<Appointment>, now: int): nat {
    Count((a: Appointment) => OrZero(a.appointmentDate) >= now && a.status != Some(AppointmentStatus.CANCELLED), appointments)
  }

  function PastCount(appointments: seq<Appointment>, now: int): nat {
    Count((a: Appointment) => OrZero(a.appointmentDate) < now || a.status == Some(COMPLETED) || a.status == Some(AppointmentStatus.CANCELLED),
          appointments)
  }

  /** Each label counts exactly the list its tab shows. */
  lemma TabCountsMatchLists(appointments: seq<Appointment>, now: int)
    ensures UpcomingCount(appointments, now) == |TabList(appointments, Upcoming, now)|
    ensures PastCount(appointments, now) == |TabList(appointments, Past, now)|
  {
    FilterExt((a: Appointment) => OrZero(a.appointmentDate) >= now && a.status != Some(AppointmentStatus.CANCELLED),
              UpcomingBy(now), appointments);
    FilterExt((a: Appointment) => OrZero(a.appointmentDate) < now || a.status == Some(COMPLETED) || a.status == Some(AppointmentStatus.CANCELLED),
              PastBy(now), appointments);
  }

  /** Upcoming and past overlap exactly in the completed appointments that are
      not yet due. */
  predicate DueCompleted(a: Appointment, now: int) {
    OrZero(a.appointmentDate) >= now && a.status == Some(COMPLETED)
  }

  /** Every appointment is in at least one tab, and in both exactly when it is a
      completed appointment not yet due. */
  lemma TabsOverlap(a: Appointment, now: int)
    ensures IsUpcoming(a, now) || IsPast(a, now)
    ensures IsUpcoming(a, now) && IsPast(a, now) <==> DueCompleted(a, now)
  {
  }

  /** The two tabs together count every appointment once, plus the completed
      ones not yet due a second time. */
  lemma TabsCoverAll(appointments: seq<Appointment>, now: int)
    ensures |TabList(appointments, Upcoming, now)| + |TabList(appointments, Past, now)|
            == |appointments| + Count((a: Appointment) => DueCompleted(a, now), appointments)
  {
    var both := (a: Appointment) => DueCompleted(a, now);
    var either := (a: Appointment) => true;
    forall a: Appointment
      ensures either(a) == (UpcomingBy(now)(a) || PastBy(now)(a))
      ensures both(a) == (UpcomingBy(now)(a) && PastBy(now)(a))
    {
      TabsOverlap(a, now);
    }
    CountUnion(UpcomingBy(now), PastBy(now), either, both, appointments);
    FilterAll(either, appointments);
  }

  /** `{ status: 'CANCELLED' }`: the only field the cancel request carries. */
  const CancelRequest: Appointment := Appointment(None, None, None, None, None, Some(AppointmentStatus.CANCELLED), None)

  /** The server applies the cancel request by changing the status alone. */
  lemma CancelChangesOnlyStatus(stored: Appointment, patients: map<int, Patient>, doctors: map<int, Doctor>)
    ensures Appointments.Updated(stored, CancelRequest, patients, doctors) == stored.(status := Some(AppointmentStatus.CANCELLED))
  {
  }

  /** Once cancelled, an appointment leaves the upcoming tab and is listed as past. */
  lemma CancelledIsPast(stored: Appointment, patients: map<int, Patient>, doctors: map<int, Doctor>, now: int)
    ensures var a := Appointments.Updated(stored, CancelRequest, patients, doctors);
            !IsUpcoming(a, now) && IsPast(a, now)
  {
  }
}
