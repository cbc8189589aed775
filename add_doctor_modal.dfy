/** The add-doctor form: the email pattern, the six checks run in order before
    anything is sent, and the create request. */
module AddDoctorModal {
  import opened Base
  import opened Entities
  import opened Text
  import opened Forms

  /** A run of the pattern's `[^\s@]` class: no whitespace and no '@'. */
  predicate Plain(t: string) {
    forall j :: 0 <= j < |t| ==> !IsSpace(t[j]) && t[j] != '@'
  }

  /** `/^[^\s@]+@[^\s@]+\.[^\s@]+$/.test(email)`: a non-empty plain part, '@', a
      non-empty plain part, '.', and a non-empty plain part. */
  predicate EmailPattern(s: string) {
    exists i, k :: 0 < i && i + 1 < k && k + 1 < |s| && s[i] == '@' && s[k] == '.'
                   && Plain(s[..i]) && Plain(s[i + 1..k]) && Plain(s[k + 1..])
  }

  /** The '@' at i is the only one in s. */
  predicate OnlyAt(s: string, i: int) {
    0 <= i < |s| && s[i] == '@' && forall j :: 0 <= j < |s| && s[j] == '@' ==> j == i
  }

  /** What the pattern accepts, in plain terms: no whitespace anywhere, exactly one
      '@' with text before it, and after the '@' a '.' with text on both sides. */
  lemma {:induction false} EmailPatternShape(s: string)
    ensures EmailPattern(s) <==>
              NoSpace(s) && exists i, k :: OnlyAt(s, i) && 0 < i && i + 1 < k < |s| - 1 && s[k] == '.'
  {
    if EmailPattern(s) {
      var i, k :| 0 < i && i + 1 < k && k + 1 < |s| && s[i] == '@' && s[k] == '.'
                  && Plain(s[..i]) && Plain(s[i + 1..k]) && Plain(s[k + 1..]);
      forall j | 0 <= j < |s| && j != i ensures !IsSpace(s[j]) && s[j] != '@' {
        if j < i { assert s[..i][j] == s[j]; }
        else if j < k { assert s[i + 1..k][j - i - 1] == s[j]; }
        else if j > k { assert s[k + 1..][j - k - 1] == s[j]; }
      }
      assert OnlyAt(s, i);
    }
    if NoSpace(s) && exists i, k :: OnlyAt(s, i) && 0 < i && i + 1 < k < |s| - 1 && s[k] == '.' {
      var i, k :| OnlyAt(s, i) && 0 < i && i + 1 < k < |s| - 1 && s[k] == '.';
      assert Plain(s[..i]);
      assert Plain(s[i + 1..k]);
      assert Plain(s[k + 1..]);
    }
  }

  /** An ordinary address passes; one without a dot after the '@', or with a
      space, does not. */
  lemma EmailExamples()
    ensures EmailPattern("a@b.co")
    ensures !EmailPattern("a@bco")
    ensures !EmailPattern("a b@c.d")
  {
    var s := "a@b.co";
    assert s[..1] == "a" && s[2..3] == "b" && s[4..] == "co";
    assert Plain("a") && Plain("b") && Plain("co");
    assert s[1] == '@' && s[3] == '.';
    EmailPatternShape("a@bco");
    EmailPatternShape("a b@c.d");
    assert IsSpace("a b@c.d"[1]);
  }

  /** `!formData.experience || formData.experience < 0` fails the experience
      check: an empty box or a negative number (0 passes). */
  predicate ValidExperience(experience: Option<int>) {
    experience.Some? && experience.value >= 0
  }

  /** `validateForm`'s checks, in order. */
  function Checks(name: string, email: string, contactNumber: string, specialization: string, experience: Option<int>): seq<Check> {
    [ Check(!AllSpace(name), "Name is required"),
      Check(!AllSpace(email), "Email is required"),
      Check(EmailPattern(email), "Invalid email format"),
      Check(!AllSpace(contactNumber), "Contact number is required"),
      Check(specialization != "", "Specialization is required"),
      Check(ValidExperience(experience), "Valid experience is required") ]
  }

  /** The form passes exactly when the name, email and contact number are not blank,
      the email has the pattern's shape, a specialization is chosen and the
      experience is a number that is not negative; a blank email reports
      "Email is required" and not the format error. */
  lemma ChecksOrder(name: string, email: string, contactNumber: string, specialization: string, experience: Option<int>)
    ensures FirstFailure(Checks(name, email, contactNumber, specialization, experience)).None? <==>
              !AllSpace(name) && EmailPattern(email) && !AllSpace(contactNumber) && specialization != "" && ValidExperience(experience)
    ensures AllSpace(name) ==> FirstFailure(Checks(name, email, contactNumber, specialization, experience)) == Some("Name is required")
    ensures !AllSpace(name) && AllSpace(email) ==>
              FirstFailure(Checks(name, email, contactNumber, specialization, experience)) == Some("Email is required")
    ensures !AllSpace(name) && !AllSpace(email) && !EmailPattern(email) ==>
              FirstFailure(Checks(name, email, contactNumber, specialization, experience)) == Some("Invalid email format")
    ensures !AllSpace(name) && EmailPattern(email) && AllSpace(contactNumber) ==>
              FirstFailure(Checks(name, email, contactNumber, specialization, experience)) == Some("Contact number is required")
    ensures !AllSpace(name) && EmailPattern(email) && !AllSpace(contactNumber) && specialization == "" ==>
              FirstFailure(Checks(name, email, contactNumber, specialization, experience)) == Some("Specialization is required")
    ensures !AllSpace(name) && EmailPattern(email) && !AllSpace(contactNumber) && specialization != "" && !ValidExperience(experience) ==>
              FirstFailure(Checks(name, email, contactNumber, specialization, experience)) == Some("Valid experience is required")
  {
    EmailNotBlank(email);
    UnfoldChecks(Checks(name, email, contactNumber, specialization, experience));
  }

  /** The six-step chain, unfolded. */
  lemma UnfoldChecks(c: seq<Check>)
    requires |c| == 6
    ensures FirstFailure(c) ==
              if !c[0].ok then Some(c[0].message) else if !c[1].ok then Some(c[1].message)
              else if !c[2].ok then Some(c[2].message) else if !c[3].ok then Some(c[3].message)
              else if !c[4].ok then Some(c[4].message) else if !c[5].ok then Some(c[5].message) else None
  {
    FirstFailureCons(c[5], []);
    FirstFailureCons(c[4], [c[5]]);
    FirstFailureCons(c[3], [c[4], c[5]]);
    FirstFailureCons(c[2], [c[3], c[4], c[5]]);
    FirstFailureCons(c[1], [c[2], c[3], c[4], c[5]]);
    FirstFailureCons(c[0], [c[1], c[2], c[3], c[4], c[5]]);
    assert c == [c[0], c[1], c[2], c[3], c[4], c[5]];
  }

  /** An email of the pattern's shape is never blank. */
  lemma EmailNotBlank(email: string)
    ensures EmailPattern(email) ==> !AllSpace(email)
  {
    if EmailPattern(email) {
      var i, k :| 0 < i && i + 1 < k && k + 1 < |email| && email[i] == '@' && email[k] == '.'
                  && Plain(email[..i]) && Plain(email[i + 1..k]) && Plain(email[k + 1..]);
      assert email[i] == '@' && !IsSpace(email[i]);
    }
  }

  /** The specialization select's choices. */
  const Specializations: seq<string> := [
    "Cardiology", "Neurology", "Orthopedics", "Pediatrics", "Dermatology",
    "General Medicine", "Surgery", "ENT", "Psychiatry", "Gynecology"
  ]

  /** The form's fields. */
  datatype DoctorForm = DoctorForm(
    name: string, email: string, contactNumber: string, specialization: string,
    experience: Option<int>, qualification: string, consultationFee: Option<int>,
    bio: string, imageUrl: string, status: string)

  /** The blank form: every text empty, no numbers, status ACTIVE. */
  const BlankForm: DoctorForm := DoctorForm("", "", "", "", None, "", None, "", "", "ACTIVE")

  /** `{ ...formData, experience: parseInt(...), consultationFee: fee ? parseFloat(fee) : null }`:
      the texts as typed, the checked experience, and the fee or null when the box
      is empty. */
  function Payload(f: DoctorForm): Doctor
    requires ValidExperience(f.experience)
  {
    Doctor(None, Some(f.name), Some(f.specialization), Some(f.qualification), f.experience, Some(f.contactNumber),
           Some(f.email), Some(f.imageUrl), Some(f.bio), f.consultationFee, Some(f.status), None)
  }

  /** The outcome of the checks on a form: the message shown, or None. */
  function Verdict(f: DoctorForm): Option<string> {
    FirstFailure(Checks(f.name, f.email, f.contactNumber, f.specialization, f.experience))
  }

  /** A form that passes every check has an experience to parse. */
  lemma AcceptedHasExperience(f: DoctorForm)
    requires FirstFailure(Checks(f.name, f.email, f.contactNumber, f.specialization, f.experience)).None?
    ensures ValidExperience(f.experience)
  {
    UnfoldChecks(Checks(f.name, f.email, f.contactNumber, f.specialization, f.experience));
  }

  /** The checks of `validateForm` as its early-return chain runs them: the
      message of the first failing one, or None. */
  method FirstFailedCheck(f: DoctorForm) returns (message: Option<string>)
    ensures message == FirstFailure(Checks(f.name, f.email, f.contactNumber, f.specialization, f.experience))
  {
    ChecksOrder(f.name, f.email, f.contactNumber, f.specialization, f.experience);
    if IsBlank(f.name) {
      return Some("Name is required");
    }
    if IsBlank(f.email) {
      return Some("Email is required");
    }
    if !EmailPattern(f.email) {
      return Some("Invalid email format");
    }
    if IsBlank(f.contactNumber) {
      return Some("Contact number is required");
    }
    if f.specialization == "" {
      return Some("Specialization is required");
    }
    if f.experience.None? || f.experience.value < 0 {
      return Some("Valid experience is required");
    }
    return None;
  }

  /** The payload carries every field of the form, converted as above, and
      neither an id nor a certificate. */
  lemma PayloadKeepsForm(f: DoctorForm)
    requires ValidExperience(f.experience)
    ensures var r := Payload(f);
      && r.id.None? && r.certificateUrl.None?
      && r.name == Some(f.name) && r.email == Some(f.email) && r.contactNumber == Some(f.contactNumber)
      && r.specialization == Some(f.specialization) && r.qualification == Some(f.qualification)
      && r.bio == Some(f.bio) && r.imageUrl == Some(f.imageUrl) && r.status == Some(f.status)
      && r.experience == f.experience && r.consultationFee == f.consultationFee
  {
  }

  const CreateFailed := "Failed to add doctor. Please try again."

  /** The form's state. */
  class AddDoctorForm {
    var form: DoctorForm
    var error: string

    constructor ()
      ensures form == BlankForm && error == ""
    {
      form := BlankForm;
      error := "";
    }

    /** `handleChange`: the whole form is replaced by its edited copy. */
    method HandleChange(edited: DoctorForm)
      modifies this`form
      ensures form == edited
    {
      form := edited;
    }

    /** `validateForm`: the early-return chain sets the message of the first failing
        check, and passes exactly when every check does. */
    method ValidateForm() returns (ok: bool)
      modifies this`error
      ensures ok <==> Verdict(form).None?
      ensures !ok ==> error == Verdict(form).value
      ensures ok ==> error == old(error)
    {
      var message := FirstFailedCheck(form);
      if message.Some? {
        error := message.value;
      }
      ok := message.None?;
    }

    /** `handleSubmit`: a failing check shows its message and sends nothing;
        otherwise the create request carries the payload, and a failed request
        (`createFails`) shows the generic error. */
    method HandleSubmit(createFails: bool) returns (request: Option<Doctor>)
      modifies this`error
      ensures Verdict(form).Some? ==>
                request.None? && error == Verdict(form).value
      ensures Verdict(form).None? ==>
                && ValidExperience(form.experience) && request == Some(Payload(form))
                && error == (if createFails then CreateFailed else "")
    {
      error := "";
      var ok := ValidateForm();
      if !ok {
        return None;
      }
      ghost var verdict := Verdict(form);
      assert verdict.None?;
      AcceptedHasExperience(form);
      request := Some(Payload(form));
      error := if createFails then CreateFailed else "";
      assert Verdict(form) == verdict;
    }
  }
}
