/** The doctor's home screen: today's non-cancelled appointments of the linked
    doctor, or a notice when the session is linked to no doctor. */
module DoctorDashboard {
  import opened Base
  import opened Entities
  import opened Seqs

  /** `apt.doctor?.id === parseInt(doctorId) && apt.status !== 'CANCELLED'` */
  predicate Mine(a: Appointment, doctorId: int) {
    DoctorIdOf(a) == Some(doctorId) && a.status != Some(AppointmentStatus.CANCELLED)
  }

  /** `apt.appointmentDate.startsWith(today)`, for an appointment with a date. */
  predicate DatedToday(a: Appointment, now: int) {
    a.appointmentDate.Some? && DayOf(a.appointmentDate.value) == DayOf(now)
  }

  function MineBy(doctorId: int): Appointment -> bool { a => Mine(a, doctorId) }
  function TodayBy(now: int): Appointment -> bool { a => DatedToday(a, now) }
  function ShownBy(doctorId: int, now: int): Appointment -> bool { a => Mine(a, doctorId) && DatedToday(a, now) }

  /** `loadAppointments`: the doctor's non-cancelled appointments, then those of
      them dated today, in their original order.  One of the doctor's
      non-cancelled appointments without a date makes `startsWith` throw; the
      error is caught and nothing is shown, which is None here. */
  function TodaysAppointments(doctorId: int, all: seq<Appointment>, now: int): (r: Option<seq<Appointment>>)
    ensures r.None? <==> exists i :: 0 <= i < |all| && Mine(all[i], doctorId) && all[i].appointmentDate.None?
    ensures r.Some? ==> SubseqOf(r.value, all)
    ensures r.Some? ==> forall a :: a in r.value <==> a in all && Mine(a, doctorId) && DatedToday(a, now)
  {
    if exists i :: 0 <= i < |all| && Mine(all[i], doctorId) && all[i].appointmentDate.None? then None
    else
      var mine := Filter(MineBy(doctorId), all);
      FilterCompose(MineBy(doctorId), TodayBy(now), ShownBy(doctorId, now), all);
      FilterSubseq(ShownBy(doctorId, now), all);
      Some(Filter(TodayBy(now), mine))
  }

  /** What the screen shows. */
  datatype Screen = ProfileNotLinked | Schedule(appointments: seq<Appointment>, badge: nat)

  /** With no `doctorId` nothing is fetched and "Profile Not Linked" is shown;
      otherwise today's list, with a badge counting exactly the listed
      appointments (none after a failed load). */
  function View(doctorId: Option<int>, all: seq<Appointment>, now: int): (r: Screen)
    ensures doctorId.None? <==> r == ProfileNotLinked
    ensures r.Schedule? ==> r.badge == |r.appointments|
    ensures r.Schedule? ==> forall a :: a in r.appointments ==> Mine(a, doctorId.value) && DatedToday(a, now)
    ensures doctorId.Some? && TodaysAppointments(doctorId.value, all, now).Some? ==>
              r == Schedule(TodaysAppointments(doctorId.value, all, now).value, |TodaysAppointments(doctorId.value, all, now).value|)
  {
    if doctorId.None? then ProfileNotLinked
    else
      var shown := TodaysAppointments(doctorId.value, all, now);
      var list := if shown.Some? then shown.value else [];
      Schedule(list, |list|)
  }
}
