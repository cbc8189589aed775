/** The doctor service: creation, full-record update that keeps the certificate,
    deletion, and the repository's lookup by name. */
module Doctors {
  import opened Base
  import opened Entities
  import opened Seqs

  /** What an update does to a stored doctor: the ten profile fields take the
      supplied values, nulls included; the id and the certificate are kept. */
  function UpdatedDoctor(stored: Doctor, details: Doctor): (r: Doctor)
    ensures r.id == stored.id && r.certificateUrl == stored.certificateUrl
    ensures r.name == details.name && r.specialization == details.specialization
    ensures r.qualification == details.qualification && r.experience == details.experience
    ensures r.contactNumber == details.contactNumber && r.email == details.email
    ensures r.imageUrl == details.imageUrl && r.bio == details.bio
    ensures r.consultationFee == details.consultationFee && r.status == details.status
  {
    details.(id := stored.id, certificateUrl := stored.certificateUrl)
  }

  /** The update depends only on the supplied profile, not on the stored one. */
  lemma UpdatedDoctorOverwrites(a: Doctor, b: Doctor, details: Doctor)
    requires a.id == b.id && a.certificateUrl == b.certificateUrl
    ensures UpdatedDoctor(a, details) == UpdatedDoctor(b, details)
  {
  }

  class DoctorService {
    /** The doctor repository, by id. */
    var doctors: map<int, Doctor>
    /** The next identity value the database hands out. */
    var nextId: int

    ghost predicate Valid()
      reads this
    {
      forall k :: k in doctors ==> k < nextId && doctors[k].id == Some(k)
    }

    /** The ids of the doctors with exactly this name. */
    ghost function Named(name: string): set<int>
      reads this
    {
      set k | k in doctors && doctors[k].name == Some(name)
    }

    constructor ()
      ensures Valid() && doctors == map[]
    {
      doctors := map[];
      nextId := 1;
    }

    /** `createDoctor`: stores the record as given, under a fresh id. */
    method CreateDoctor(d: Doctor) returns (saved: Doctor)
      requires Valid()
      modifies this`doctors, this`nextId
      ensures Valid()
      ensures saved == d.(id := Some(old(nextId)))
      ensures doctors == old(doctors)[old(nextId) := saved] && nextId == old(nextId) + 1
    {
      saved := d.(id := Some(nextId));
      doctors := doctors[nextId := saved];
      nextId := nextId + 1;
    }

    /** `updateDoctor`: a missing id gives null and changes nothing; otherwise the
        row becomes `UpdatedDoctor(stored, details)` and no other row changes. */
    method UpdateDoctor(id: int, details: Doctor) returns (r: Option<Doctor>)
      requires Valid()
      modifies this`doctors
      ensures Valid()
      ensures id !in old(doctors) ==> r.None? && doctors == old(doctors)
      ensures id in old(doctors) ==> r == Some(UpdatedDoctor(old(doctors[id]), details))
                                     && doctors == old(doctors)[id := r.value]
    {
      if id !in doctors {
        return None;
      }
      var doctor := doctors[id];
      doctor := doctor.(name := details.name);
      doctor := doctor.(specialization := details.specialization);
      doctor := doctor.(qualification := details.qualification);
      doctor := doctor.(experience := details.experience);
      doctor := doctor.(contactNumber := details.contactNumber);
      doctor := doctor.(email := details.email);
      doctor := doctor.(imageUrl := details.imageUrl);
      doctor := doctor.(bio := details.bio);
      doctor := doctor.(consultationFee := details.consultationFee);
      doctor := doctor.(status := details.status);
      doctors := doctors[id := doctor];
      r := Some(doctor);
    }

    /** `deleteDoctor`: true iff the id existed; afterwards it is absent. */
    method DeleteDoctor(id: int) returns (existed: bool)
      requires Valid()
      modifies this`doctors
      ensures Valid()
      ensures existed == (id in old(doctors))
      ensures doctors == old(doctors) - {id}
    {
      existed := id in doctors;
      if existed {
        doctors := doctors - {id};
      }
    }

    /** `findByName`: the one doctor with exactly this name, null when there is
        none, and an error when there are several. */
    method FindByName(name: string) returns (r: Result<Option<Doctor>, QueryError>)
      requires Valid()
      ensures r == Ok(None) <==> Named(name) == {}
      ensures r.Err? <==> |Named(name)| >= 2
      ensures r.Ok? && r.value.Some? ==> r.value.value.id.Some? && Named(name) == {r.value.value.id.value}
                                         && doctors[r.value.value.id.value] == r.value.value
    {
      var keys := doctors.Keys;
      var found: Option<int> := None;
      while keys != {}
        invariant keys <= doctors.Keys
        invariant found.None? ==> Named(name) <= keys
        invariant found.Some? ==> found.value in doctors && found.value in Named(name) && found.value !in keys
                                  && Named(name) <= keys + {found.value}
        decreases |keys|
      {
        var k := Pick(keys);
        if doctors[k].name == Some(name) {
          if found.Some? {
            assert {k, found.value} <= Named(name);
            assert |{k, found.value}| == 2;
            CardinalityMonotone({k, found.value}, Named(name));
            return Err(NonUniqueResult);
          }
          found := Some(k);
        }
        keys := keys - {k};
      }
      if found.None? {
        return Ok(None);
      }
      var f := found.value;
      assert Named(name) == {f};
      assert Valid();
      assert doctors[f].id == Some(f);
      r := Ok(Some(doctors[f]));
      assert |Named(name)| == 1;
    }
  }
}
