/** The booking dialog: the eight time slots, the two input checks, the lookup of
    the session's patient record by name, the composition of the appointment time
    and the request sent to the appointment service. */
module BookingModal {
  import opened Base
  import opened Entities
  import opened Text
  import opened Forms
  import Appointments

  /** The selectable times, as the buttons show them. */
  const TimeSlots: seq<string> := ["09:00", "10:00", "11:00", "12:00", "14:00", "15:00", "16:00", "17:00"]

  /** The hours the slots stand for, slot by slot. */
  const SlotHours: seq<int> := [9, 10, 11, 12, 14, 15, 16, 17]

  predicate IsDigit(c: char) { '0' <= c <= '9' }

  /** "hh:mm" with two digits on each side of the colon. */
  predicate IsClock(s: string) {
    |s| == 5 && s[2] == ':' && IsDigit(s[0]) && IsDigit(s[1]) && IsDigit(s[3]) && IsDigit(s[4])
  }

  /** `selectedTime.split(':')` followed by `parseInt` of both pieces. */
  function HourMinute(slot: string): (r: (int, int))
    requires IsClock(slot)
    ensures 0 <= r.0 < 100 && 0 <= r.1 < 100
    ensures r.0 == 10 * (slot[0] as int - '0' as int) + (slot[1] as int - '0' as int)
    ensures r.1 == 10 * (slot[3] as int - '0' as int) + (slot[4] as int - '0' as int)
  {
    assert slot == slot[..2] + [':'] + slot[3..];
    SplitFirst(slot[..2], ':', slot[3..]);
    SplitPlain(slot[3..], ':');
    var parts := Split(slot, ':');
    assert parts[0] == slot[..2] && parts[1] == slot[3..];
    TwoDigits(parts[0]);
    TwoDigits(parts[1]);
    (DigitsValue(parts[0]), DigitsValue(parts[1]))
  }

  /** `parseInt` of two digits. */
  lemma TwoDigits(s: string)
    requires |s| == 2 && IsDigit(s[0]) && IsDigit(s[1])
    ensures DigitsValue(s) == 10 * (s[0] as int - '0' as int) + (s[1] as int - '0' as int)
  {
    var a := s[..1];
    assert s[..|s| - 1] == a && a == [s[0]] && a[..0] == [];
    assert DigitsValue(a) == DigitsValue(a[..0]) * 10 + (a[0] as int - '0' as int);
  }

  /** The slots are exactly 09:00 to 12:00 and 14:00 to 17:00 on the hour. */
  lemma TimeSlotsParse()
    ensures |TimeSlots| == |SlotHours| == 8
    ensures forall i :: 0 <= i < |TimeSlots| ==> IsClock(TimeSlots[i]) && HourMinute(TimeSlots[i]) == (SlotHours[i], 0)
    ensures forall i :: 0 <= i < |SlotHours| ==> (9 <= SlotHours[i] <= 12 || 14 <= SlotHours[i] <= 17)
  {
    forall i | 0 <= i < |TimeSlots|
      ensures IsClock(TimeSlots[i]) && HourMinute(TimeSlots[i]) == (SlotHours[i], 0)
    {
      assert IsClock(TimeSlots[i]);
    }
  }

  const MsPerHour: int := 3600000

  /** `new Date(date).setHours(hour, minute, 0)`: the same calendar day at the given
      hour and minute, seconds 0, the milliseconds of `date` kept. */
  function AtTime(date: int, hour: int, minute: int): (r: int)
    requires 0 <= hour < 24 && 0 <= minute < 60
    ensures DayOf(r) == DayOf(date)
    ensures r - StartOfDay(r) == hour * MsPerHour + minute * MsPerMinute + date % 1000
    ensures r % MsPerMinute == date % 1000
  {
    var offset := hour * MsPerHour + minute * MsPerMinute + date % 1000;
    var q := DayOf(date);
    var r := q * MsPerDay + offset;
    DivModOf(q, offset, MsPerDay);
    assert r == (q * 1440 + hour * 60 + minute) * MsPerMinute + date % 1000;
    DivModOf(q * 1440 + hour * 60 + minute, date % 1000, MsPerMinute);
    r
  }

  /** The time the request carries for a date and one of the slots. */
  function ScheduledAt(date: int, slot: string): (r: int)
    requires slot in TimeSlots
    ensures DayOf(r) == DayOf(date)
    ensures exists i :: 0 <= i < |TimeSlots| && slot == TimeSlots[i]
                        && r - StartOfDay(r) == SlotHours[i] * MsPerHour + date % 1000
  {
    TimeSlotsParse();
    var i :| 0 <= i < |TimeSlots| && slot == TimeSlots[i];
    var hm := HourMinute(slot);
    AtTime(date, hm.0, hm.1)
  }

  /** The checks of `handleSubmit`, in order. */
  function Checks(date: Option<int>, time: Option<string>, reason: string): seq<Check> {
    [ Check(date.Some? && time.Some?, "Please select both date and time"),
      Check(Trim(reason) != "", "Please enter a reason for visit") ]
  }

  /** The date/time check comes first; a blank or whitespace-only reason is
      refused once both are chosen; everything else passes. */
  lemma ChecksOrder(date: Option<int>, time: Option<string>, reason: string)
    ensures date.None? || time.None? ==> FirstFailure(Checks(date, time, reason)) == Some("Please select both date and time")
    ensures date.Some? && time.Some? ==>
              (FirstFailure(Checks(date, time, reason)) == Some("Please enter a reason for visit") <==> AllSpace(reason))
    ensures FirstFailure(Checks(date, time, reason)).None? <==> date.Some? && time.Some? && !AllSpace(reason)
  {
    TrimEmptyIffAllSpace(reason);
    var c := Checks(date, time, reason);
    assert c[1..] == [c[1]];
    assert c[1..][1..] == [];
    assert FirstFailure(c[1..]) == if !c[1].ok then Some(c[1].message) else FirstFailure(c[1..][1..]);
  }

  /** `p.name.toLowerCase() === username?.toLowerCase()` for a patient with a name. */
  predicate NameMatches(p: Patient, username: Option<string>) {
    p.name.Some? && username.Some? && EqualsIgnoreCase(p.name.value, username.value)
  }

  /** The outcome of `patients.find(...)`: a patient, none, or the TypeError thrown
      by reaching a patient without a name before any match. */
  datatype Lookup = Found(patient: Patient) | NotFound | Crashed

  function FindPatient(patients: seq<Patient>, username: Option<string>): Lookup
    decreases |patients|
  {
    if patients == [] then NotFound
    else if patients[0].name.None? then Crashed
    else if NameMatches(patients[0], username) then Found(patients[0])
    else FindPatient(patients[1..], username)
  }

  /** The lookup finds the first patient whose name equals the username ignoring
      case, provided every patient before it has a name; it finds nothing exactly
      when every patient has a name and none matches; a session without a
      username never finds a patient. */
  lemma {:induction false} FindPatientSpec(patients: seq<Patient>, username: Option<string>)
    ensures FindPatient(patients, username).Found? ==>
              exists k :: 0 <= k < |patients| && patients[k] == FindPatient(patients, username).patient
                          && NameMatches(patients[k], username)
                          && forall i :: 0 <= i < k ==> patients[i].name.Some? && !NameMatches(patients[i], username)
    ensures FindPatient(patients, username).NotFound? <==>
              forall i :: 0 <= i < |patients| ==> patients[i].name.Some? && !NameMatches(patients[i], username)
    ensures username.None? ==> !FindPatient(patients, username).Found?
    decreases |patients|
  {
    if patients != [] && patients[0].name.Some? && !NameMatches(patients[0], username) {
      FindPatientSpec(patients[1..], username);
      var r := FindPatient(patients, username);
      if r.Found? {
        var k :| 0 <= k < |patients[1..]| && patients[1..][k] == r.patient && NameMatches(patients[1..][k], username)
                 && forall i :: 0 <= i < k ==> patients[1..][i].name.Some? && !NameMatches(patients[1..][i], username);
        assert patients[k + 1] == r.patient;
        forall i | 0 <= i < k + 1 ensures patients[i].name.Some? && !NameMatches(patients[i], username) {
          if i > 0 { assert patients[i] == patients[1..][i - 1]; }
        }
      }
      if forall i :: 0 <= i < |patients[1..]| ==> patients[1..][i].name.Some? && !NameMatches(patients[1..][i], username) {
        forall i | 0 <= i < |patients| ensures patients[i].name.Some? && !NameMatches(patients[i], username) {
          if i > 0 { assert patients[i] == patients[1..][i - 1]; }
        }
      }
    } else if patients != [] {
      assert !(patients[0].name.Some? && !NameMatches(patients[0], username));
    }
  }

  /** `{ id: x.id }` for a patient and for a doctor. */
  function PatientIdOnly(id: Option<int>): Patient {
    Patient(id, None, None, None, None, None, None, None)
  }

  function DoctorIdOnly(id: Option<int>): Doctor {
    Doctor(id, None, None, None, None, None, None, None, None, None, None, None)
  }

  /** The appointment the dialog asks the server to create: the two ids, the
      composed time, the reason as typed (not trimmed), SCHEDULED and an empty
      lab-test list. */
  function BookingRequest(patientId: Option<int>, doctorId: Option<int>, dateTime: int, reason: string): (r: Appointment)
    ensures PatientIdOf(r) == patientId && DoctorIdOf(r) == doctorId
    ensures r.id.None? && r.appointmentDate == Some(dateTime) && r.reason == Some(reason)
    ensures r.status == Some(SCHEDULED) && r.labTestsRequired == Some("")
  {
    Appointment(None, Some(PatientIdOnly(patientId)), Some(DoctorIdOnly(doctorId)), Some(dateTime), Some(reason),
                Some(SCHEDULED), Some(""))
  }

  /** The server keeps what the dialog sends once both ids are known: the stored
      appointment is SCHEDULED with the dialog's time, reason and empty lab tests. */
  lemma BookingRequestAccepted(patientId: int, doctorId: int, dateTime: int, reason: string,
                               patients: map<int, Patient>, doctors: map<int, Doctor>)
    requires patientId in patients && doctorId in doctors
    ensures var r := Appointments.Resolve(BookingRequest(Some(patientId), Some(doctorId), dateTime, reason), patients, doctors);
      && r.Ok? && r.value.status == Some(SCHEDULED) && r.value.appointmentDate == Some(dateTime)
      && r.value.reason == Some(reason) && r.value.labTestsRequired == Some("")
      && r.value.patient == Some(patients[patientId]) && r.value.doctor == Some(doctors[doctorId])
  {
  }

  /** `err.message || 'Failed to book appointment'` */
  function ErrorText(message: string): (r: string)
    ensures r != ""
    ensures message != "" ==> r == message
  {
    if message != "" then message else "Failed to book appointment"
  }

  /** The dialog's state; `selectedTime` is set only from the slot buttons. */
  class BookingForm {
    var selectedDate: Option<int>
    var selectedTime: Option<string>
    var reason: string
    var error: string
    const doctor: Doctor

    ghost predicate Valid()
      reads this
    {
      selectedTime.Some? ==> selectedTime.value in TimeSlots
    }

    constructor (doctor: Doctor)
      ensures Valid()
      ensures selectedDate.None? && selectedTime.None? && reason == "" && error == "" && this.doctor == doctor
    {
      selectedDate := None;
      selectedTime := None;
      reason := "";
      error := "";
      this.doctor := doctor;
    }

    method SelectDate(date: int)
      modifies this`selectedDate
      ensures selectedDate == Some(date)
    {
      selectedDate := Some(date);
    }

    method SelectTime(slot: string)
      requires slot in TimeSlots
      modifies this`selectedTime
      ensures Valid() && selectedTime == Some(slot)
    {
      selectedTime := Some(slot);
    }

    method SetReason(text: string)
      modifies this`reason
      ensures reason == text
    {
      reason := text;
    }

    /** `handleSubmit`.  A failed check sets its message and sends nothing.  Then
        the session's patient is looked up among `patients`; when none is found
        (or a nameless record throws first) reading `patient.id` throws, the
        engine's message `typeError` is shown and nothing is sent — no patient is
        created.  Otherwise the request is sent; `createError` is the message of a
        failed request. */
    method HandleSubmit(patients: seq<Patient>, username: Option<string>, typeError: string, createError: Option<string>)
      returns (request: Option<Appointment>)
      requires Valid()
      modifies this`error
      ensures FirstFailure(Checks(selectedDate, selectedTime, reason)).Some? ==>
                request.None? && error == FirstFailure(Checks(selectedDate, selectedTime, reason)).value
      ensures FirstFailure(Checks(selectedDate, selectedTime, reason)).None? && !FindPatient(patients, username).Found? ==>
                request.None? && error == ErrorText(typeError)
      ensures FirstFailure(Checks(selectedDate, selectedTime, reason)).None? && FindPatient(patients, username).Found? ==>
                && request == Some(BookingRequest(FindPatient(patients, username).patient.id, doctor.id,
                                                  ScheduledAt(selectedDate.value, selectedTime.value), reason))
                && error == (if createError.Some? then ErrorText(createError.value) else "")
    {
      ChecksOrder(selectedDate, selectedTime, reason);
      TrimEmptyIffAllSpace(reason);
      error := "";
      if selectedDate.None? || selectedTime.None? {
        error := "Please select both date and time";
        return None;
      }
      if Trim(reason) == "" {
        error := "Please enter a reason for visit";
        return None;
      }
      var found := FindPatient(patients, username);
      if !found.Found? {
        error := ErrorText(typeError);
        return None;
      }
      var dateTime := ScheduledAt(selectedDate.value, selectedTime.value);
      request := Some(BookingRequest(found.patient.id, doctor.id, dateTime, reason));
      if createError.Some? {
        error := ErrorText(createError.value);
      }
    }
  }
}
