/** The doctor details dialog: the first five appointments in the server's order
    and the appointment statistics.  Its initials are the doctor table's
    `Initials`, and its footer shows to `StaffControls` roles. */
module DoctorDetailsModal {
  import opened Base
  import opened Entities
  import opened Seqs

  /** `aptList.slice(0, 5)` */
  function Recent(appointments: seq<Appointment>): (r: seq<Appointment>)
    ensures |r| == if |appointments| < 5 then |appointments| else 5
    ensures r == appointments[..|r|]
  {
    Take(appointments, 5)
  }

  predicate IsCompleted(a: Appointment) { a.status == Some(COMPLETED) }

  /** `new Date(a.appointmentDate) >= now && a.status === 'SCHEDULED'` */
  predicate IsUpcoming(a: Appointment, now: int) {
    OrZero(a.appointmentDate) >= now && a.status == Some(SCHEDULED)
  }

  function UpcomingBy(now: int): Appointment -> bool { a => IsUpcoming(a, now) }

  datatype AppointmentStats = AppointmentStats(total: nat, completed: nat, upcoming: nat)

  /** The statistics of the fetched appointments: all of them, the completed ones
      and the scheduled ones not yet due.  No appointment is both completed and
      upcoming, so the two never add up to more than the total. */
  function StatsOf(appointments: seq<Appointment>, now: int): (r: AppointmentStats)
    ensures r.total == |appointments|
    ensures r.completed == |Filter(IsCompleted, appointments)| && r.upcoming == |Filter(UpcomingBy(now), appointments)|
    ensures r.completed + r.upcoming <= r.total
  {
    CountDisjoint(IsCompleted, UpcomingBy(now), appointments);
    AppointmentStats(|appointments|, Count(IsCompleted, appointments), Count(UpcomingBy(now), appointments))
  }
}
