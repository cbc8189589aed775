/** The patient details dialog: the first five appointments in the server's order,
    the appointment statistics and the gender icon. */
module PatientDetailsModal {
  import opened Base
  import opened Entities
  import DoctorDetailsModal
  import PatientsTable
  import Text
  import opened Seqs

  /** What the dialog shows once the patient's appointments are fetched. */
  datatype Details = Details(recent: seq<Appointment>, stats: DoctorDetailsModal.AppointmentStats, icon: PatientsTable.GenderIcon)

  /** The first five appointments, the same statistics as the doctor dialog
      (upcoming: scheduled and not yet due; completed), and the table's gender
      icon rule. */
  function DetailsOf(patient: Patient, appointments: seq<Appointment>, now: int): (r: Details)
    ensures |r.recent| == (if |appointments| < 5 then |appointments| else 5) && r.recent == appointments[..|r.recent|]
    ensures r.stats.total == |appointments|
    ensures r.stats.completed == |Filter(DoctorDetailsModal.IsCompleted, appointments)|
    ensures r.stats.upcoming == |Filter(DoctorDetailsModal.UpcomingBy(now), appointments)|
    ensures r.stats.upcoming + r.stats.completed <= r.stats.total
    ensures r.icon == PatientsTable.Man <==> patient.gender.Some? && Text.EqualsIgnoreCase(patient.gender.value, "male")
    ensures r.icon == PatientsTable.Woman <==> patient.gender.Some? && Text.EqualsIgnoreCase(patient.gender.value, "female")
    ensures r.icon == PatientsTable.Person <==>
              patient.gender.None? || (!Text.EqualsIgnoreCase(patient.gender.value, "male") && !Text.EqualsIgnoreCase(patient.gender.value, "female"))
  {
    Details(DoctorDetailsModal.Recent(appointments), DoctorDetailsModal.StatsOf(appointments, now),
            PatientsTable.GenderIconOf(patient.gender))
  }
}
