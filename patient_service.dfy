/** The patient service: creation, full-record update with a conditional doctor
    change, deletion, and the repository's lookup by name. */
module Patients {
  import opened Base
  import opened Entities
  import opened Seqs

  /** What an update does to a stored patient: name, age, gender, contact, medical
      history and lab tests take the supplied values, nulls included; the doctor
      changes only when the supplied doctor has an id, and becomes null when no
      doctor has that id. */
  function UpdatedPatient(stored: Patient, details: Patient, doctors: map<int, Doctor>): (r: Patient)
    ensures r.id == stored.id
    ensures r.name == details.name && r.age == details.age && r.gender == details.gender
    ensures r.contactNumber == details.contactNumber && r.medicalHistory == details.medicalHistory
    ensures r.labTestsRequired == details.labTestsRequired
    ensures details.doctor.None? || details.doctor.value.id.None? ==> r.doctor == stored.doctor
    ensures details.doctor.Some? && details.doctor.value.id.Some? ==>
              r.doctor == if details.doctor.value.id.value in doctors then Some(doctors[details.doctor.value.id.value]) else None
  {
    var doctor :=
      if details.doctor.Some? && details.doctor.value.id.Some? then
        (if details.doctor.value.id.value in doctors then Some(doctors[details.doctor.value.id.value]) else None)
      else stored.doctor;
    stored.(name := details.name, age := details.age, gender := details.gender,
            contactNumber := details.contactNumber, medicalHistory := details.medicalHistory,
            doctor := doctor, labTestsRequired := details.labTestsRequired)
  }

  /** Updating twice with the same details is the same as updating once. */
  lemma UpdatedPatientIdempotent(stored: Patient, details: Patient, doctors: map<int, Doctor>)
    ensures UpdatedPatient(UpdatedPatient(stored, details, doctors), details, doctors) == UpdatedPatient(stored, details, doctors)
  {
  }

  class PatientService {
    /** The patient repository, by id. */
    var patients: map<int, Patient>
    /** The doctor repository, as this service reads it. */
    const doctors: map<int, Doctor>
    /** The next identity value the database hands out. */
    var nextId: int

    ghost predicate Valid()
      reads this
    {
      (forall k :: k in doctors ==> doctors[k].id == Some(k))
      && (forall k :: k in patients ==> k < nextId && patients[k].id == Some(k))
    }

    /** The ids of the patients with exactly this name. */
    ghost function Named(name: string): set<int>
      reads this
    {
      set k | k in patients && patients[k].name == Some(name)
    }

    constructor (doctors: map<int, Doctor>)
      requires forall k :: k in doctors ==> doctors[k].id == Some(k)
      ensures Valid() && patients == map[] && this.doctors == doctors
    {
      patients := map[];
      this.doctors := doctors;
      nextId := 1;
    }

    /** `createPatient`: stores the record as given, under a fresh id. */
    method CreatePatient(p: Patient) returns (saved: Patient)
      requires Valid()
      modifies this`patients, this`nextId
      ensures Valid()
      ensures saved == p.(id := Some(old(nextId)))
      ensures patients == old(patients)[old(nextId) := saved] && nextId == old(nextId) + 1
    {
      saved := p.(id := Some(nextId));
      patients := patients[nextId := saved];
      nextId := nextId + 1;
    }

    /** `updatePatient`: a missing id gives null and changes nothing; otherwise the
        row becomes `UpdatedPatient(stored, details)` and no other row changes. */
    method UpdatePatient(id: int, details: Patient) returns (r: Option<Patient>)
      requires Valid()
      modifies this`patients
      ensures Valid()
      ensures id !in old(patients) ==> r.None? && patients == old(patients)
      ensures id in old(patients) ==> r == Some(UpdatedPatient(old(patients[id]), details, doctors))
                                      && patients == old(patients)[id := r.value]
    {
      if id !in patients {
        return None;
      }
      var patient := patients[id];
      patient := patient.(name := details.name);
      patient := patient.(age := details.age);
      patient := patient.(gender := details.gender);
      patient := patient.(contactNumber := details.contactNumber);
      patient := patient.(medicalHistory := details.medicalHistory);
      var newDoctor := details.doctor;
      if newDoctor.Some? && newDoctor.value.id.Some? {
        var did := newDoctor.value.id.value;
        patient := patient.(doctor := if did in doctors then Some(doctors[did]) else None);
      }
      patient := patient.(labTestsRequired := details.labTestsRequired);
      patients := patients[id := patient];
      r := Some(patient);
    }

    /** `deletePatient`: true iff the id existed; afterwards it is absent. */
    method DeletePatient(id: int) returns (existed: bool)
      requires Valid()
      modifies this`patients
      ensures Valid()
      ensures existed == (id in old(patients))
      ensures patients == old(patients) - {id}
    {
      existed := id in patients;
      if existed {
        patients := patients - {id};
      }
    }

    /** `findByName`: the one patient with exactly this name, null when there is
        none, and an error when there are several. */
    method FindByName(name: string) returns (r: Result<Option<Patient>, QueryError>)
      requires Valid()
      ensures r == Ok(None) <==> Named(name) == {}
      ensures r.Err? <==> |Named(name)| >= 2
      ensures r.Ok? && r.value.Some? ==> r.value.value.id.Some? && Named(name) == {r.value.value.id.value}
                                         && patients[r.value.value.id.value] == r.value.value
    {
      var keys := patients.Keys;
      var found: Option<int> := None;
      while keys != {}
        invariant keys <= patients.Keys
        invariant found.None? ==> Named(name) <= keys
        invariant found.Some? ==> found.value in patients && found.value in Named(name) && found.value !in keys && Named(name) <= keys + {found.value}
        decreases |keys|
      {
        var k := Pick(keys);
        if patients[k].name == Some(name) {
          if found.Some? {
            assert {k, found.value} <= Named(name);
            assert |{k, found.value}| == 2;
            CardinalityMonotone({k, found.value}, Named(name));
            return Err(NonUniqueResult);
          }
          found := Some(k);
        }
        keys := keys - {k};
      }
      if found.None? {
        return Ok(None);
      }
      assert Named(name) == {found.value};
      var f := found.value;
      assert f in patients;
      assert Valid();
      assert patients[f].id == Some(f);
      r := Ok(Some(patients[found.value]));
      assert |Named(name)| == 1;
    }
  }
}
