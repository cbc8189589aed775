/** The add-patient form: the doctor choice, the four checks run in order before
    anything is sent, and the create request. */
module AddPatientModal {
  import opened Base
  import opened Entities
  import opened Text
  import opened Forms

  /** `value ? parseInt(value) : null`, then `doctorId ? { id: doctorId } : null`;
      None is the "No Doctor Assigned" option.  An id of 0 is dropped too. */
  function DoctorChoice(value: Option<int>): (r: Option<Doctor>)
    ensures r.Some? <==> value.Some? && value.value != 0
    ensures r.Some? ==> r.value == DoctorRef(value.value)
  {
    if value.Some? && value.value != 0 then Some(DoctorRef(value.value)) else None
  }

  /** The select's shown value, `formData.doctor?.id || ''`. */
  function SelectValue(doctor: Option<Doctor>): Option<int> {
    if doctor.Some? && doctor.value.id.Some? && doctor.value.id.value != 0 then doctor.value.id else None
  }

  /** The select shows back the option chosen. */
  lemma ChoiceRoundTrip(value: Option<int>)
    ensures SelectValue(DoctorChoice(value)) == if value == Some(0) then None else value
  {
  }

  /** `!formData.age || formData.age < 1 || formData.age > 120` fails the age check. */
  predicate ValidAge(age: Option<int>) {
    age.Some? && 1 <= age.value <= 120
  }

  /** `validateForm`'s checks, in order. */
  function Checks(name: string, age: Option<int>, gender: string, contactNumber: string): seq<Check> {
    [ Check(!AllSpace(name), "Name is required"),
      Check(ValidAge(age), "Valid age is required (1-120)"),
      Check(gender != "", "Gender is required"),
      Check(!AllSpace(contactNumber), "Contact number is required") ]
  }

  /** The first failing check decides the message: a blank or whitespace-only name,
      then an age outside 1..120, then a missing gender, then a blank or
      whitespace-only contact number; the form passes exactly when none fails. */
  lemma ChecksOrder(name: string, age: Option<int>, gender: string, contactNumber: string)
    ensures AllSpace(name) ==> FirstFailure(Checks(name, age, gender, contactNumber)) == Some("Name is required")
    ensures !AllSpace(name) && !ValidAge(age) ==>
              FirstFailure(Checks(name, age, gender, contactNumber)) == Some("Valid age is required (1-120)")
    ensures !AllSpace(name) && ValidAge(age) && gender == "" ==>
              FirstFailure(Checks(name, age, gender, contactNumber)) == Some("Gender is required")
    ensures !AllSpace(name) && ValidAge(age) && gender != "" && AllSpace(contactNumber) ==>
              FirstFailure(Checks(name, age, gender, contactNumber)) == Some("Contact number is required")
    ensures FirstFailure(Checks(name, age, gender, contactNumber)).None? <==>
              !AllSpace(name) && ValidAge(age) && gender != "" && !AllSpace(contactNumber)
  {
    var c := Checks(name, age, gender, contactNumber);
    FirstFailureCons(c[3], []);
    FirstFailureCons(c[2], [c[3]]);
    FirstFailureCons(c[1], [c[2], c[3]]);
    FirstFailureCons(c[0], [c[1], c[2], c[3]]);
    assert c == [c[0], c[1], c[2], c[3]];
  }

  /** `{ ...formData, age: parseInt(formData.age) }`: the form's fields as typed
      (the name is sent untrimmed) and the integer age. */
  function Payload(name: string, age: int, gender: string, contactNumber: string, medicalHistory: string,
                   labTestsRequired: string, doctor: Option<Doctor>): (r: Patient)
    ensures r.id.None? && r.name == Some(name) && r.age == Some(age) && r.gender == Some(gender)
    ensures r.contactNumber == Some(contactNumber) && r.medicalHistory == Some(medicalHistory)
    ensures r.labTestsRequired == Some(labTestsRequired) && r.doctor == doctor
  {
    Patient(None, Some(name), Some(age), Some(gender), Some(contactNumber), Some(medicalHistory), doctor, Some(labTestsRequired))
  }

  /** The text fields `handleChange` stores as typed. */
  datatype TextField = Name | Gender | ContactNumber | MedicalHistory

  /** The form's state; the age box holding no number is None. */
  class AddPatientForm {
    var name: string
    var age: Option<int>
    var gender: string
    var contactNumber: string
    var medicalHistory: string
    var labTestsRequired: string
    var doctor: Option<Doctor>
    var error: string

    constructor ()
      ensures name == "" && age.None? && gender == "" && contactNumber == "" && medicalHistory == ""
      ensures labTestsRequired == "" && doctor.None? && error == ""
    {
      name, age, gender, contactNumber, medicalHistory := "", None, "", "", "";
      labTestsRequired, doctor, error := "", None, "";
    }

    /** `handleChange` on a text field: that field alone changes. */
    method HandleChange(field: TextField, value: string)
      modifies this`name, this`gender, this`contactNumber, this`medicalHistory
      ensures field == Name ==> name == value && unchanged(this`gender, this`contactNumber, this`medicalHistory)
      ensures field == Gender ==> gender == value && unchanged(this`name, this`contactNumber, this`medicalHistory)
      ensures field == ContactNumber ==> contactNumber == value && unchanged(this`name, this`gender, this`medicalHistory)
      ensures field == MedicalHistory ==> medicalHistory == value && unchanged(this`name, this`gender, this`contactNumber)
    {
      match field
      case Name => name := value;
      case Gender => gender := value;
      case ContactNumber => contactNumber := value;
      case MedicalHistory => medicalHistory := value;
    }

    /** `handleChange` on the age box. */
    method HandleAgeChange(value: Option<int>)
      modifies this`age
      ensures age == value
    {
      age := value;
    }

    /** `handleChange` on the doctor select. */
    method HandleDoctorChange(value: Option<int>)
      modifies this`doctor
      ensures doctor == DoctorChoice(value)
    {
      doctor := if value.Some? && value.value != 0 then Some(DoctorRef(value.value)) else None;
    }

    /** `handleLabTestsChange` */
    method HandleLabTestsChange(value: string)
      modifies this`labTestsRequired
      ensures labTestsRequired == value
    {
      labTestsRequired := value;
    }

    /** `validateForm`: the early-return chain sets the message of the first failing
        check, and passes exactly when every check does. */
    method ValidateForm() returns (ok: bool)
      modifies this`error
      ensures ok <==> FirstFailure(Checks(name, age, gender, contactNumber)).None?
      ensures !ok ==> error == FirstFailure(Checks(name, age, gender, contactNumber)).value
      ensures ok ==> error == old(error)
    {
      ChecksOrder(name, age, gender, contactNumber);
      if IsBlank(name) {
        error := "Name is required";
        return false;
      }
      if age.None? || age.value < 1 || age.value > 120 {
        error := "Valid age is required (1-120)";
        return false;
      }
      if gender == "" {
        error := "Gender is required";
        return false;
      }
      if IsBlank(contactNumber) {
        error := "Contact number is required";
        return false;
      }
      return true;
    }

    /** `handleSubmit`: a failing check shows its message and sends nothing;
        otherwise the create request carries the payload, and a failed request
        (`createFails`) shows the generic error. */
    method HandleSubmit(createFails: bool) returns (request: Option<Patient>)
      modifies this`error
      ensures FirstFailure(Checks(name, age, gender, contactNumber)).Some? ==>
                request.None? && error == FirstFailure(Checks(name, age, gender, contactNumber)).value
      ensures FirstFailure(Checks(name, age, gender, contactNumber)).None? ==>
                && ValidAge(age)
                && request == Some(Payload(name, age.value, gender, contactNumber, medicalHistory, labTestsRequired, doctor))
                && error == (if createFails then "Failed to add patient. Please try again." else "")
    {
      error := "";
      var ok := ValidateForm();
      if !ok {
        return None;
      }
      ChecksOrder(name, age, gender, contactNumber);
      request := Some(Payload(name, age.value, gender, contactNumber, medicalHistory, labTestsRequired, doctor));
      if createFails {
        error := "Failed to add patient. Please try again.";
      }
    }
  }
}
