/** The edit-doctor form: the form pre-filled from the doctor, the three checks
    run in order before anything is sent, and the update request. */
module EditDoctorModal {
  import opened Base
  import opened Entities
  import opened Text
  import opened Forms
  import AddDoctorModal
  import Doctors

  /** `x || ''` on a text field. */
  function TextOrEmpty(x: Option<string>): string {
    if Truthy(x) then x.value else ""
  }

  /** What a number box of this form holds.  The form starts from the doctor's
      values, so a box can hold a number pre-filled from the doctor, text the user
      typed (by the integer it parses to), or nothing (''). */
  datatype NumberBox = Blank | Prefilled(n: int) | Typed(n: int)

  /** JavaScript truthiness of a box's value: '' and the number 0 are falsy, while
      any typed text, "0" included, is truthy. */
  predicate BoxTruthy(b: NumberBox) {
    match b
    case Blank => false
    case Prefilled(n) => n != 0
    case Typed(_) => true
  }

  /** `doctor.experience || ''` and `doctor.consultationFee || ''` as written: the
      box is left empty for a missing number and for 0 alike. */
  function NumberAsWritten(x: Option<int>): (r: NumberBox)
    ensures r.Blank? <==> x.None? || x.value == 0
    ensures !r.Blank? ==> r == Prefilled(x.value)
    ensures BoxTruthy(r) <==> !r.Blank?
  {
    if x.Some? && x.value != 0 then Prefilled(x.value) else Blank
  }

  /** `doctor.experience ?? ''`: the box is empty only for a missing number. */
  function NumberCorrected(x: Option<int>): (r: NumberBox)
    ensures r.Blank? <==> x.None?
    ensures x.Some? ==> r == Prefilled(x.value)
  {
    if x.Some? then Prefilled(x.value) else Blank
  }

  /** The form's fields; the texts are as typed. */
  datatype EditForm = EditForm(
    name: string, email: string, contactNumber: string, specialization: string,
    experience: NumberBox, qualification: string, consultationFee: NumberBox,
    bio: string, imageUrl: string, status: string)

  /** The initial form as written: '' for a missing text, an empty box for a missing
      or zero number, ACTIVE for a missing status. */
  function InitialForm(d: Doctor): (r: EditForm)
    ensures r.experience == NumberAsWritten(d.experience) && r.consultationFee == NumberAsWritten(d.consultationFee)
    ensures r.status == if Truthy(d.status) then d.status.value else "ACTIVE"
    ensures Truthy(d.name) ==> r.name == d.name.value
    ensures Truthy(d.email) ==> r.email == d.email.value
  {
    EditForm(TextOrEmpty(d.name), TextOrEmpty(d.email), TextOrEmpty(d.contactNumber),
             TextOrEmpty(d.specialization), NumberAsWritten(d.experience), TextOrEmpty(d.qualification),
             NumberAsWritten(d.consultationFee), TextOrEmpty(d.bio), TextOrEmpty(d.imageUrl),
             if Truthy(d.status) then d.status.value else "ACTIVE")
  }

  /** The initial form with the pre-fill corrected (`x ?? ''` on the numbers): a
      number box is empty only when the doctor has no number. */
  function CorrectedInitialForm(d: Doctor): (r: EditForm)
    ensures r.experience == NumberCorrected(d.experience) && r.consultationFee == NumberCorrected(d.consultationFee)
    ensures r == InitialForm(d).(experience := r.experience, consultationFee := r.consultationFee)
  {
    InitialForm(d).(experience := NumberCorrected(d.experience), consultationFee := NumberCorrected(d.consultationFee))
  }

  /** `x ? parseInt(x) : null` as written: a falsy box is sent as null. */
  function SentAsWritten(b: NumberBox): (r: Option<int>)
    ensures r.None? <==> !BoxTruthy(b)
    ensures r.Some? ==> r.value == b.n
  {
    if BoxTruthy(b) then Some(b.n) else None
  }

  /** `x !== '' ? parseInt(x) : null`: only an empty box is sent as null. */
  function SentCorrected(b: NumberBox): (r: Option<int>)
    ensures r.None? <==> b.Blank?
    ensures r.Some? ==> r.value == b.n
  {
    if b.Blank? then None else Some(b.n)
  }

  /** The update body `{ ...formData, experience, consultationFee }` with the two
      numbers given; neither id nor certificate is sent. */
  function Body(f: EditForm, experience: Option<int>, consultationFee: Option<int>): Doctor {
    Doctor(None, Some(f.name), Some(f.specialization), Some(f.qualification), experience, Some(f.contactNumber),
           Some(f.email), Some(f.imageUrl), Some(f.bio), consultationFee, Some(f.status), None)
  }

  /** The update body as written: a falsy number box is sent as null. */
  function Payload(f: EditForm): (r: Doctor)
    ensures r.experience == SentAsWritten(f.experience) && r.consultationFee == SentAsWritten(f.consultationFee)
    ensures r.name == Some(f.name) && r.email == Some(f.email) && r.status == Some(f.status)
    ensures r.id.None? && r.certificateUrl.None?
  {
    Body(f, SentAsWritten(f.experience), SentAsWritten(f.consultationFee))
  }

  /** The update body with the test corrected to `!== ''`: only an empty box is
      sent as null. */
  function CorrectedPayload(f: EditForm): (r: Doctor)
    ensures r.experience == SentCorrected(f.experience) && r.consultationFee == SentCorrected(f.consultationFee)
    ensures r == Payload(f).(experience := r.experience, consultationFee := r.consultationFee)
  {
    Body(f, SentCorrected(f.experience), SentCorrected(f.consultationFee))
  }

  /** A box the form as written can hold: never a pre-filled 0. */
  predicate WrittenBox(b: NumberBox) {
    b != Prefilled(0)
  }

  /** On every box the form as written can hold, the two tests agree: typed text
      is sent as its number, an empty box as null.  The corrected test changes the
      request only for a pre-filled 0, which only the corrected pre-fill produces. */
  lemma TestsAgreeOnWrittenBoxes(f: EditForm)
    requires WrittenBox(f.experience) && WrittenBox(f.consultationFee)
    ensures CorrectedPayload(f) == Payload(f)
  {
  }

  /** As written, saving the form untouched erases a doctor's experience of 0: the
      server stores null. */
  lemma UntouchedEditErasesZeroExperience(stored: Doctor)
    requires stored.experience == Some(0)
    ensures Doctors.UpdatedDoctor(stored, Payload(InitialForm(stored))).experience.None?
    ensures Doctors.UpdatedDoctor(stored, Payload(InitialForm(stored))).experience != stored.experience
  {
  }

  /** Correcting the pre-fill alone is not enough: the truthiness test then sends
      the pre-filled 0 as null all the same. */
  lemma PrefillFixAloneStillErases(stored: Doctor)
    requires stored.experience == Some(0)
    ensures Doctors.UpdatedDoctor(stored, Payload(CorrectedInitialForm(stored))).experience.None?
  {
  }

  /** Correcting the test alone is not enough either: the written pre-fill leaves
      the box of a 0 empty, which is still sent as null. */
  lemma TestFixAloneStillErases(stored: Doctor)
    requires stored.experience == Some(0)
    ensures Doctors.UpdatedDoctor(stored, CorrectedPayload(InitialForm(stored))).experience.None?
  {
  }

  /** With both corrections (`?? ''` at the pre-fill and `!== ''` at the request),
      saving the form untouched keeps the doctor's numbers, id, certificate and
      (present) status as they were. */
  lemma UntouchedEditKeepsNumbers(stored: Doctor)
    ensures var r := Doctors.UpdatedDoctor(stored, CorrectedPayload(CorrectedInitialForm(stored)));
      && r.experience == stored.experience && r.consultationFee == stored.consultationFee
      && r.id == stored.id && r.certificateUrl == stored.certificateUrl
      && (Truthy(stored.status) ==> r.status == stored.status)
  {
  }

  /** `validateForm`'s checks, in order; the email pattern is the add form's. */
  function Checks(name: string, email: string): seq<Check> {
    [ Check(!AllSpace(name), "Name is required"),
      Check(!AllSpace(email), "Email is required"),
      Check(AddDoctorModal.EmailPattern(email), "Invalid email format") ]
  }

  /** The form passes exactly when the name is not blank and the email has the
      pattern's shape; a blank name is reported first, then a blank email, then a
      malformed one. */
  lemma ChecksOrder(name: string, email: string)
    ensures FirstFailure(Checks(name, email)).None? <==> !AllSpace(name) && AddDoctorModal.EmailPattern(email)
    ensures AllSpace(name) ==> FirstFailure(Checks(name, email)) == Some("Name is required")
    ensures !AllSpace(name) && AllSpace(email) ==> FirstFailure(Checks(name, email)) == Some("Email is required")
    ensures !AllSpace(name) && !AllSpace(email) && !AddDoctorModal.EmailPattern(email) ==>
              FirstFailure(Checks(name, email)) == Some("Invalid email format")
  {
    AddDoctorModal.EmailNotBlank(email);
    var c := Checks(name, email);
    FirstFailureCons(c[2], []);
    FirstFailureCons(c[1], [c[2]]);
    FirstFailureCons(c[0], [c[1], c[2]]);
    assert c == [c[0], c[1], c[2]];
  }

  /** The edit form never checks the contact number, specialization or
      experience: a form the add form refuses for those alone passes here. */
  lemma LaxerThanAddForm(f: AddDoctorModal.DoctorForm)
    requires AddDoctorModal.Verdict(f).None?
    ensures FirstFailure(Checks(f.name, f.email)).None?
  {
    AddDoctorModal.ChecksOrder(f.name, f.email, f.contactNumber, f.specialization, f.experience);
    ChecksOrder(f.name, f.email);
  }

  /** The outcome of the checks on a form: the message shown, or None. */
  function Verdict(f: EditForm): Option<string> {
    FirstFailure(Checks(f.name, f.email))
  }

  /** The checks of `validateForm` as its early-return chain runs them: the
      message of the first failing one, or None. */
  method FirstFailedCheck(name: string, email: string) returns (message: Option<string>)
    ensures message == FirstFailure(Checks(name, email))
  {
    ChecksOrder(name, email);
    if IsBlank(name) {
      return Some("Name is required");
    }
    if IsBlank(email) {
      return Some("Email is required");
    }
    if !AddDoctorModal.EmailPattern(email) {
      return Some("Invalid email format");
    }
    return None;
  }

  const UpdateFailed := "Failed to update doctor. Please try again."

  /** The form's state, opened on `doctor`. */
  class EditDoctorForm {
    var form: EditForm
    var error: string
    const doctor: Doctor

    constructor (doctor: Doctor)
      ensures form == InitialForm(doctor) && error == "" && this.doctor == doctor
    {
      form := InitialForm(doctor);
      error := "";
      this.doctor := doctor;
    }

    /** `handleChange`: the whole form is replaced by its edited copy. */
    method HandleChange(edited: EditForm)
      modifies this`form
      ensures form == edited
    {
      form := edited;
    }

    /** `validateForm`: the early-return chain sets the message of the first failing
        check, and passes exactly when every check does. */
    method ValidateForm() returns (ok: bool)
      modifies this`error
      ensures ok <==> Verdict(form).None?
      ensures !ok ==> error == Verdict(form).value
      ensures ok ==> error == old(error)
    {
      var message := FirstFailedCheck(form.name, form.email);
      assert message == Verdict(form);
      if message.Some? {
        error := message.value;
      }
      ok := message.None?;
    }

    /** `handleSubmit`: a failing check shows its message and sends nothing;
        otherwise one update of `doctor.id` carries the payload, and a failed
        request (`updateFails`) shows the generic error. */
    method HandleSubmit(updateFails: bool) returns (request: Option<(Option<int>, Doctor)>)
      modifies this`error
      ensures Verdict(form).Some? ==>
                request.None? && error == Verdict(form).value
      ensures Verdict(form).None? ==>
                request == Some((doctor.id, Payload(form))) && error == (if updateFails then UpdateFailed else "")
    {
      error := "";
      var ok := ValidateForm();
      if !ok {
        return None;
      }
      ghost var verdict := Verdict(form);
      assert verdict.None?;
      request := Some((doctor.id, Payload(form)));
      error := if updateFails then UpdateFailed else "";
      assert Verdict(form) == verdict;
    }
  }
}
