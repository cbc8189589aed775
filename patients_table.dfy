/** The patient table's cells: the gender icon, the truncated medical history and
    the fallbacks for missing values. */
module PatientsTable {
  import opened Base
  import opened Entities
  import opened Text

  datatype GenderIcon = Man | Woman | Person

  /** `getGenderIcon`: male or female ignoring case; anything else, or nothing,
      gets the neutral icon. */
  function GenderIconOf(gender: Option<string>): (r: GenderIcon)
    ensures r == Man <==> gender.Some? && EqualsIgnoreCase(gender.value, "male")
    ensures r == Woman <==> gender.Some? && EqualsIgnoreCase(gender.value, "female")
    ensures r == Person <==> gender.None? || (!EqualsIgnoreCase(gender.value, "male") && !EqualsIgnoreCase(gender.value, "female"))
  {
    assert ToLower("male") == "male" && ToLower("female") == "female";
    if gender.Some? && ToLower(gender.value) == "male" then Man
    else if gender.Some? && ToLower(gender.value) == "female" then Woman
    else Person
  }

  /** `truncateText(text, maxLength = 30)`: '-' for a missing or empty text; a
      longer text is cut to `maxLength` characters followed by "..."; a shorter
      one is kept. */
  function TruncateText(text: Option<string>, maxLength: nat := 30): (r: string)
    ensures !Truthy(text) ==> r == "-"
    ensures Truthy(text) && |text.value| > maxLength ==> |r| == maxLength + 3 && r == text.value[..maxLength] + "..."
    ensures Truthy(text) && |text.value| <= maxLength ==> r == text.value
    ensures |r| <= maxLength + 3
  {
    if !Truthy(text) then "-"
    else if |text.value| > maxLength then text.value[..maxLength] + "..."
    else text.value
  }

  /** `patient.age || '-'`: an age of 0 shows as '-' too. */
  function AgeCell(age: Option<int>): (r: string)
    ensures r == "-" <==> age.None? || age.value == 0
  {
    if age.Some? && age.value != 0 then IntToDecimal(age.value) else "-"
  }

  /** `patient.doctor ? patient.doctor.name : 'Not assigned'` */
  function DoctorCell(p: Patient): (r: Option<string>)
    ensures p.doctor.None? ==> r == Some("Not assigned")
    ensures p.doctor.Some? ==> r == p.doctor.value.name
  {
    if p.doctor.Some? then p.doctor.value.name else Some("Not assigned")
  }

  /** The lab-tests cell says "Required" exactly when the list is non-empty. */
  function LabTestsRequired(p: Patient): (r: bool)
    ensures r <==> p.labTestsRequired.Some? && p.labTestsRequired.value != ""
  {
    Truthy(p.labTestsRequired)
  }
}
