/** The appointment service: booking with the 30-minute conflict window and the
    required patient and doctor references, partial update and deletion. */
module Appointments {
  import opened Base
  import opened Entities
  import opened Text
  import opened Seqs

  /** The ways creation or an update can fail. */
  datatype AppointmentError =
    | AlreadyBooked
      /** `Duration.between` on an existing appointment whose date is null. */
    | MissingDate
    | PatientIdRequired
    | PatientNotFound(patientId: int)
    | DoctorIdRequired
    | DoctorNotFound(doctorId: int)
      /** The non-null patient or doctor join column refuses a null reference. */
    | ReferenceMissing
  {
    predicate IsPatientError() {
      PatientIdRequired? || PatientNotFound?
    }
  }

  /** The message of the exception each error raises (the database's own wording
      is not modelled, so a null reference and a null date have none). */
  function Message(e: AppointmentError): Option<string> {
    match e
    case AlreadyBooked => Some("Doctor is already booked at this time")
    case MissingDate => None
    case PatientIdRequired => Some("Patient ID is required")
    case PatientNotFound(id) => Some("Patient not found with ID: " + IntToDecimal(id))
    case DoctorIdRequired => Some("Doctor ID is required")
    case DoctorNotFound(id) => Some("Doctor not found with ID: " + IntToDecimal(id))
    case ReferenceMissing => None
  }

  /** `Duration.between` in whole seconds: a Duration's nanosecond part is never
      negative, so the millisecond difference is rounded down (Dafny's `/` floors
      for a positive divisor). */
  function DurationSeconds(ms: int): int {
    ms / 1000
  }

  /** `Duration.toMinutes`: the seconds divided by 60, truncated toward zero. */
  function ToMinutes(seconds: int): int {
    if seconds >= 0 then seconds / 60 else -((-seconds) / 60)
  }

  function Abs(x: int): nat {
    if x < 0 then -x else x
  }

  /** Two date-times closer than the conflict window, as the service measures it:
      `Math.abs(Duration.between(new, existing).toMinutes()) < 30`. */
  predicate TooClose(newDate: int, existingDate: int) {
    Abs(ToMinutes(DurationSeconds(existingDate - newDate))) < 30
  }

  /** The conflict window in milliseconds, d being the existing date minus the new
      one.  Rounding down to seconds and then truncating to minutes make the window
      lopsided: from 29 minutes 59 seconds before the new date up to 29 minutes
      59.999 seconds after it. */
  lemma TooCloseWindow(newDate: int, existingDate: int)
    ensures TooClose(newDate, existingDate) <==> -1799000 <= existingDate - newDate <= 1799999
  {
    var d := existingDate - newDate;
    var s := DurationSeconds(d);
    if s >= 0 {
      assert s / 60 < 30 <==> s < 1800;
      assert s < 1800 <==> d < 1800000;
    } else {
      assert (-s) / 60 < 30 <==> -s < 1800;
      assert -s < 1800 <==> -1799000 <= d;
    }
  }

  /** Exactly 30 minutes apart, in either direction, is allowed. */
  lemma ThirtyMinutesApartAllowed(t: int)
    ensures !TooClose(t, t + 30 * MsPerMinute) && !TooClose(t, t - 30 * MsPerMinute)
  {
    TooCloseWindow(t, t + 30 * MsPerMinute);
    TooCloseWindow(t, t - 30 * MsPerMinute);
  }

  /** The window is not symmetric: an existing appointment 29:59.999 later still
      blocks, while one 29:59.5 earlier does not (its difference rounds down to
      -1800 seconds, exactly -30 minutes). */
  lemma WindowLopsided(t: int)
    ensures TooClose(t, t + 1799999)
    ensures !TooClose(t, t - 1799500)
    ensures TooClose(t, t - 1799000)
  {
    TooCloseWindow(t, t + 1799999);
    TooCloseWindow(t, t - 1799500);
    TooCloseWindow(t, t - 1799000);
  }

  /** An existing appointment the conflict loop looks at: not cancelled (a null
      status is looked at too). */
  predicate Counts(e: Appointment) {
    e.status != Some(CANCELLED)
  }

  /** `existing` blocks a booking of the same doctor at `date`. */
  predicate Blocks(e: Appointment, date: int) {
    Counts(e) && e.appointmentDate.Some? && TooClose(date, e.appointmentDate.value)
  }

  /** A cancelled appointment never blocks a booking. */
  lemma CancelledNeverBlocks(e: Appointment, date: int)
    requires e.status == Some(CANCELLED)
    ensures !Blocks(e, date)
  {
  }

  /** The conflict check runs only for a request naming a doctor id and a date. */
  predicate ConflictChecked(a: Appointment) {
    DoctorIdOf(a).Some? && a.appointmentDate.Some?
  }

  /** The reference checks and the status default that follow the conflict check:
      patient first, then doctor; both are replaced by the stored records. */
  function Resolve(a: Appointment, patients: map<int, Patient>, doctors: map<int, Doctor>): (r: Result<Appointment, AppointmentError>)
    ensures r.Ok? <==> PatientIdOf(a).Some? && PatientIdOf(a).value in patients
                       && DoctorIdOf(a).Some? && DoctorIdOf(a).value in doctors
    ensures PatientIdOf(a).None? ==> r == Err(PatientIdRequired)
    ensures PatientIdOf(a).Some? && PatientIdOf(a).value !in patients ==> r == Err(PatientNotFound(PatientIdOf(a).value))
    ensures !(PatientIdOf(a).Some? && PatientIdOf(a).value in patients) ==> r.Err? && r.error.IsPatientError()
    ensures PatientIdOf(a).Some? && PatientIdOf(a).value in patients ==>
              (DoctorIdOf(a).None? ==> r == Err(DoctorIdRequired))
              && (DoctorIdOf(a).Some? && DoctorIdOf(a).value !in doctors ==> r == Err(DoctorNotFound(DoctorIdOf(a).value)))
    ensures r.Ok? ==> r.value.patient == Some(patients[PatientIdOf(a).value])
                      && r.value.doctor == Some(doctors[DoctorIdOf(a).value])
                      && r.value.status == Some(a.status.GetOr(SCHEDULED))
                      && r.value.(patient := a.patient, doctor := a.doctor, status := a.status) == a
  {
    if PatientIdOf(a).None? then Err(PatientIdRequired)
    else if PatientIdOf(a).value !in patients then Err(PatientNotFound(PatientIdOf(a).value))
    else if DoctorIdOf(a).None? then Err(DoctorIdRequired)
    else if DoctorIdOf(a).value !in doctors then Err(DoctorNotFound(DoctorIdOf(a).value))
    else
      var status := if a.status.None? then Some(SCHEDULED) else a.status;
      Ok(a.(patient := Some(patients[PatientIdOf(a).value]), doctor := Some(doctors[DoctorIdOf(a).value]), status := status))
  }

  /** What an update does to a stored appointment: date, reason, status and lab
      tests change only when supplied non-null; a supplied patient or doctor id is
      replaced by the stored record, or by null when there is none. */
  function Updated(stored: Appointment, details: Appointment, patients: map<int, Patient>, doctors: map<int, Doctor>): (r: Appointment)
    ensures r.id == stored.id
  {
    var date := if details.appointmentDate.Some? then details.appointmentDate else stored.appointmentDate;
    var reason := if details.reason.Some? then details.reason else stored.reason;
    var status := if details.status.Some? then details.status else stored.status;
    var tests := if details.labTestsRequired.Some? then details.labTestsRequired else stored.labTestsRequired;
    var patient :=
      if PatientIdOf(details).None? then stored.patient
      else if PatientIdOf(details).value in patients then Some(patients[PatientIdOf(details).value]) else None;
    var doctor :=
      if DoctorIdOf(details).None? then stored.doctor
      else if DoctorIdOf(details).value in doctors then Some(doctors[DoctorIdOf(details).value]) else None;
    stored.(appointmentDate := date, reason := reason, status := status, labTestsRequired := tests,
            patient := patient, doctor := doctor)
  }

  /** The partial update field by field: a supplied value replaces the stored
      one, an absent one keeps it; a supplied patient or doctor id is looked up. */
  lemma UpdatedFields(stored: Appointment, details: Appointment, patients: map<int, Patient>, doctors: map<int, Doctor>)
    ensures var r := Updated(stored, details, patients, doctors);
      && r.appointmentDate == (if details.appointmentDate.Some? then details.appointmentDate else stored.appointmentDate)
      && r.reason == (if details.reason.Some? then details.reason else stored.reason)
      && r.status == (if details.status.Some? then details.status else stored.status)
      && r.labTestsRequired == (if details.labTestsRequired.Some? then details.labTestsRequired else stored.labTestsRequired)
      && (PatientIdOf(details).None? ==> r.patient == stored.patient)
      && (PatientIdOf(details).Some? ==>
            r.patient == if PatientIdOf(details).value in patients then Some(patients[PatientIdOf(details).value]) else None)
      && (DoctorIdOf(details).None? ==> r.doctor == stored.doctor)
      && (DoctorIdOf(details).Some? ==>
            r.doctor == if DoctorIdOf(details).value in doctors then Some(doctors[DoctorIdOf(details).value]) else None)
  {
  }

  /** A request that supplies nothing leaves the appointment as it was. */
  lemma UpdateWithNothing(stored: Appointment, details: Appointment, patients: map<int, Patient>, doctors: map<int, Doctor>)
    requires details.appointmentDate.None? && details.reason.None? && details.status.None?
    requires details.labTestsRequired.None? && PatientIdOf(details).None? && DoctorIdOf(details).None?
    ensures Updated(stored, details, patients, doctors) == stored
  {
  }

  /** Applying the same request twice is the same as applying it once. */
  lemma UpdateIdempotent(stored: Appointment, details: Appointment, patients: map<int, Patient>, doctors: map<int, Doctor>)
    ensures var once := Updated(stored, details, patients, doctors);
            Updated(once, details, patients, doctors) == once
  {
  }

  class AppointmentService {
    /** The appointment repository, by id. */
    var appointments: map<int, Appointment>
    /** The patient and doctor repositories, as this service reads them. */
    const patients: map<int, Patient>
    const doctors: map<int, Doctor>
    /** The next identity value the database hands out. */
    var nextId: int

    /** Database invariants: ids match their rows and every stored appointment has
        a patient and a doctor (both join columns are non-null). */
    ghost predicate Valid()
      reads this
    {
      (forall k :: k in patients ==> patients[k].id == Some(k))
      && (forall k :: k in doctors ==> doctors[k].id == Some(k))
      && (forall k :: k in appointments ==> k < nextId && appointments[k].id == Some(k))
      && (forall k :: k in appointments ==> appointments[k].patient.Some? && appointments[k].doctor.Some?)
    }

    /** A stored appointment of that doctor blocks a booking at `date`. */
    ghost predicate HasConflict(doctorId: int, date: int)
      reads this
    {
      exists k :: k in appointments && DoctorIdOf(appointments[k]) == Some(doctorId) && Blocks(appointments[k], date)
    }

    /** A stored, non-cancelled appointment of that doctor has no date. */
    ghost predicate HasUndated(doctorId: int)
      reads this
    {
      exists k :: k in appointments && DoctorIdOf(appointments[k]) == Some(doctorId)
                  && Counts(appointments[k]) && appointments[k].appointmentDate.None?
    }

    constructor (patients: map<int, Patient>, doctors: map<int, Doctor>)
      requires forall k :: k in patients ==> patients[k].id == Some(k)
      requires forall k :: k in doctors ==> doctors[k].id == Some(k)
      ensures Valid() && appointments == map[] && this.patients == patients && this.doctors == doctors
    {
      appointments := map[];
      this.patients := patients;
      this.doctors := doctors;
      nextId := 1;
    }

    /** The loop over the doctor's existing appointments.  The repository's order is
        left open, so when both a blocking and an undated appointment exist either
        error may come first. */
    method CheckConflicts(doctorId: int, date: int) returns (e: Option<AppointmentError>)
      ensures e.None? <==> !HasConflict(doctorId, date) && !HasUndated(doctorId)
      ensures e == Some(AlreadyBooked) ==> HasConflict(doctorId, date)
      ensures e == Some(MissingDate) ==> HasUndated(doctorId)
      ensures e.Some? ==> e.value == AlreadyBooked || e.value == MissingDate
    {
      var keys := appointments.Keys;
      while keys != {}
        invariant keys <= appointments.Keys
        invariant forall k :: k in appointments && k !in keys && DoctorIdOf(appointments[k]) == Some(doctorId) ==>
                    !Blocks(appointments[k], date) && !(Counts(appointments[k]) && appointments[k].appointmentDate.None?)
        decreases |keys|
      {
        var k := Pick(keys);
        var existing := appointments[k];
        if DoctorIdOf(existing) == Some(doctorId) && existing.status != Some(CANCELLED) {
          if existing.appointmentDate.None? {
            return Some(MissingDate);
          }
          var duration := DurationSeconds(existing.appointmentDate.value - date);
          var diffMinutes := Abs(ToMinutes(duration));
          if diffMinutes < 30 {
            return Some(AlreadyBooked);
          }
        }
        keys := keys - {k};
      }
      return None;
    }

    /** `createAppointment`: the conflict check (only for a request with a doctor
        id and a date), then the reference checks and the status default, then
        the save under a fresh id.  Any failure stores nothing. */
    method CreateAppointment(a: Appointment) returns (r: Result<Appointment, AppointmentError>)
      requires Valid()
      modifies this`appointments, this`nextId
      ensures Valid()
      ensures ConflictChecked(a) ==>
        var doctorId, date := DoctorIdOf(a).value, a.appointmentDate.value;
        && (r == Err(AlreadyBooked) ==> old(HasConflict(doctorId, date)))
        && (r == Err(MissingDate) ==> old(HasUndated(doctorId)))
        && (old(HasConflict(doctorId, date)) || old(HasUndated(doctorId)) ==> r == Err(AlreadyBooked) || r == Err(MissingDate))
        && (!old(HasUndated(doctorId)) ==> (r == Err(AlreadyBooked) <==> old(HasConflict(doctorId, date))))
      ensures !ConflictChecked(a) || (!old(HasConflict(DoctorIdOf(a).value, a.appointmentDate.value)) && !old(HasUndated(DoctorIdOf(a).value))) ==>
        (Resolve(a, patients, doctors).Err? ==> r == Resolve(a, patients, doctors))
        && (Resolve(a, patients, doctors).Ok? ==> r.Ok?)
      ensures r.Ok? ==> Resolve(a, patients, doctors).Ok? && r.value == Resolve(a, patients, doctors).value.(id := Some(old(nextId)))
      ensures r.Ok? ==> appointments == old(appointments)[old(nextId) := r.value] && nextId == old(nextId) + 1
      ensures r.Err? ==> appointments == old(appointments) && nextId == old(nextId)
    {
      if a.doctor.Some? && a.doctor.value.id.Some? && a.appointmentDate.Some? {
        var clash := CheckConflicts(a.doctor.value.id.value, a.appointmentDate.value);
        if clash.Some? {
          return Err(clash.value);
        }
      }
      var appointment := a;
      if a.patient.Some? && a.patient.value.id.Some? {
        var pid := a.patient.value.id.value;
        if pid !in patients {
          return Err(PatientNotFound(pid));
        }
        appointment := appointment.(patient := Some(patients[pid]));
      } else {
        return Err(PatientIdRequired);
      }
      if a.doctor.Some? && a.doctor.value.id.Some? {
        var did := a.doctor.value.id.value;
        if did !in doctors {
          return Err(DoctorNotFound(did));
        }
        appointment := appointment.(doctor := Some(doctors[did]));
      } else {
        return Err(DoctorIdRequired);
      }
      if appointment.status.None? {
        appointment := appointment.(status := Some(SCHEDULED));
      }
      appointment := appointment.(id := Some(nextId));
      appointments := appointments[nextId := appointment];
      nextId := nextId + 1;
      r := Ok(appointment);
    }

    /** The field-by-field steps of `updateAppointment` on the loaded row. */
    method ApplyDetails(stored: Appointment, details: Appointment) returns (appointment: Appointment)
      ensures appointment == Updated(stored, details, patients, doctors)
    {
      appointment := stored;
      if details.appointmentDate.Some? {
        appointment := appointment.(appointmentDate := details.appointmentDate);
      }
      if details.reason.Some? {
        appointment := appointment.(reason := details.reason);
      }
      if details.status.Some? {
        appointment := appointment.(status := details.status);
      }
      if details.labTestsRequired.Some? {
        appointment := appointment.(labTestsRequired := details.labTestsRequired);
      }
      if details.patient.Some? && details.patient.value.id.Some? {
        var pid := details.patient.value.id.value;
        appointment := appointment.(patient := if pid in patients then Some(patients[pid]) else None);
      }
      if details.doctor.Some? && details.doctor.value.id.Some? {
        var did := details.doctor.value.id.value;
        appointment := appointment.(doctor := if did in doctors then Some(doctors[did]) else None);
      }
    }

    /** `updateAppointment`: a missing id gives null; otherwise the stored row
        becomes `Updated(stored, details)`, with no conflict check, unless an
        unknown patient or doctor id has made a reference null, in which case the
        save is refused and nothing changes. */
    method UpdateAppointment(id: int, details: Appointment) returns (r: Result<Option<Appointment>, AppointmentError>)
      requires Valid()
      modifies this`appointments
      ensures Valid()
      ensures id !in old(appointments) ==> r == Ok(None) && appointments == old(appointments)
      ensures id in old(appointments) ==>
        var u := Updated(old(appointments[id]), details, patients, doctors);
        && (u.patient.Some? && u.doctor.Some? ==> r == Ok(Some(u)) && appointments == old(appointments)[id := u])
        && (u.patient.None? || u.doctor.None? ==> r == Err(ReferenceMissing) && appointments == old(appointments))
    {
      if id !in appointments {
        return Ok(None);
      }
      var appointment := ApplyDetails(appointments[id], details);
      if appointment.patient.None? || appointment.doctor.None? {
        return Err(ReferenceMissing);
      }
      appointments := appointments[id := appointment];
      r := Ok(Some(appointment));
    }

    /** `deleteAppointment`: true iff the id existed; afterwards it is absent. */
    method DeleteAppointment(id: int) returns (existed: bool)
      requires Valid()
      modifies this`appointments
      ensures Valid()
      ensures existed == (id in old(appointments))
      ensures appointments == old(appointments) - {id}
    {
      existed := id in appointments;
      if existed {
        appointments := appointments - {id};
      }
    }
  }
}
