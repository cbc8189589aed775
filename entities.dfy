/** The records the server stores and the client receives as JSON: doctors, patients,
    appointments, users and lab reports.  Every nullable Java field is an `Option`;
    money is an integer number of the smallest currency unit and a date-time is an
    integer number of milliseconds in local time. */
module Entities {
  import opened Base

  /** User roles. */
  datatype Role = ADMIN | DOCTOR | PATIENT

  /** The client's test `role !== 'PATIENT'`, which guards the add, edit and delete
      controls of the list screens and dialogs: administrators, doctors and a
      session whose stored role is missing or unknown pass it. */
  function StaffControls(role: Option<Role>): (r: bool)
    ensures r <==> role.None? || role == Some(ADMIN) || role == Some(DOCTOR)
    ensures r <==> role != Some(PATIENT)
  {
    match role
    case None => true
    case Some(x) => x != PATIENT
  }

  /** Appointment statuses. */
  datatype AppointmentStatus = SCHEDULED | COMPLETED | CANCELLED

  datatype Doctor = Doctor(
    id: Option<int>,
    name: Option<string>,
    specialization: Option<string>,
    qualification: Option<string>,
    experience: Option<int>,
    contactNumber: Option<string>,
    email: Option<string>,
    imageUrl: Option<string>,
    bio: Option<string>,
    consultationFee: Option<int>,
    status: Option<string>,
    certificateUrl: Option<string>)

  datatype Patient = Patient(
    id: Option<int>,
    name: Option<string>,
    age: Option<int>,
    gender: Option<string>,
    contactNumber: Option<string>,
    medicalHistory: Option<string>,
    doctor: Option<Doctor>,
    labTestsRequired: Option<string>)

  datatype Appointment = Appointment(
    id: Option<int>,
    patient: Option<Patient>,
    doctor: Option<Doctor>,
    appointmentDate: Option<int>,
    reason: Option<string>,
    status: Option<AppointmentStatus>,
    labTestsRequired: Option<string>)

  /** A login account; `password` holds the encoded password once stored. */
  datatype User = User(
    id: Option<int>,
    username: string,
    password: string,
    email: Option<string>,
    role: Option<Role>,
    enabled: Option<bool>)

  datatype LabReport = LabReport(
    id: Option<int>,
    patientName: Option<string>,
    doctorName: Option<string>,
    testName: Option<string>,
    reportDate: Option<int>,
    fileName: Option<string>)

  /** A derived repository query that expects one row and finds several. */
  datatype QueryError = NonUniqueResult

  /** A doctor reference as the client sends it: `{ id }`. */
  function DoctorRef(id: int): Doctor {
    Doctor(Some(id), None, None, None, None, None, None, None, None, None, None, None)
  }

  /** A patient reference as the client sends it: `{ id }`. */
  function PatientRef(id: int): Patient {
    Patient(Some(id), None, None, None, None, None, None, None)
  }

  /** `appointment.doctor?.id` */
  function DoctorIdOf(a: Appointment): Option<int> {
    if a.doctor.Some? then a.doctor.value.id else None
  }

  /** `appointment.patient?.id` */
  function PatientIdOf(a: Appointment): Option<int> {
    if a.patient.Some? then a.patient.value.id else None
  }

  /** `appointment.patient?.name` */
  function PatientNameOf(a: Appointment): Option<string> {
    if a.patient.Some? then a.patient.value.name else None
  }

  /** `appointment.doctor?.name` */
  function DoctorNameOf(a: Appointment): Option<string> {
    if a.doctor.Some? then a.doctor.value.name else None
  }

  /** `appointment.status === s` */
  predicate HasStatus(a: Appointment, s: AppointmentStatus) {
    a.status == Some(s)
  }

  const MsPerMinute: int := 60000
  const MsPerDay: int := 86400000

  /** The calendar day (days since the epoch) of a timestamp. */
  function DayOf(t: int): int {
    t / MsPerDay
  }

  /** Euclidean division undoes `q * d + r` for a remainder in range. */
  lemma {:induction false} DivModOf(q: int, r: int, d: int)
    requires 0 < d && 0 <= r < d
    ensures (q * d + r) / d == q && (q * d + r) % d == r
  {
    var n := q * d + r;
    var k := n / d - q;
    assert n == (n / d) * d + n % d;
    assert k * d == r - n % d by {
      assert (n / d) * d == (k + q) * d == k * d + q * d;
    }
  }

  /** Midnight at the start of the day of `t`. */
  function StartOfDay(t: int): (r: int)
    ensures r <= t < r + MsPerDay
    ensures DayOf(r) == DayOf(t)
  {
    DayOf(t) * MsPerDay
  }
}
