/** The patient management screen: the search, gender, doctor and age filters with
    the chosen order, the statistics and the list of doctors to assign. */
module PatientsManagement {
  import opened Base
  import opened Entities
  import opened Text
  import opened Seqs
  import DoctorsTable

  /** `doctors.filter(d => (d.status || 'ACTIVE').toUpperCase() === 'ACTIVE')` */
  function ActiveDoctors(doctors: seq<Doctor>): (r: seq<Doctor>)
    ensures SubseqOf(r, doctors)
    ensures forall d :: d in r <==> d in doctors && (!Truthy(d.status) || EqualsIgnoreCase(d.status.value, "ACTIVE"))
  {
    forall d: Doctor { DoctorsTable.IsActiveIgnoresCase(d.status); }
    FilterSubseq(ActiveBy(), doctors);
    Filter(ActiveBy(), doctors)
  }

  function ActiveBy(): Doctor -> bool {
    (d: Doctor) => DoctorsTable.IsActive(d.status)
  }

  /** `patient.id?.toString() === searchTerm`: the id's digits are the raw term. */
  predicate IdMatches(p: Patient, searchTerm: string) {
    p.id.Some? && IntToDecimal(p.id.value) == searchTerm
  }

  function DoctorName(p: Patient): Option<string> {
    if p.doctor.Some? then p.doctor.value.name else None
  }

  /** The search: the exact id, or name, contact number or doctor name containing
      the term ignoring case. */
  predicate PatientMatches(p: Patient, searchTerm: string) {
    IdMatches(p, searchTerm)
    || MaybeContainsIgnoreCase(p.name, searchTerm)
    || MaybeContainsIgnoreCase(p.contactNumber, searchTerm)
    || MaybeContainsIgnoreCase(DoctorName(p), searchTerm)
  }

  /** `p.gender?.toLowerCase() === filterGender.toLowerCase()`: a patient without a
      gender matches no choice. */
  predicate GenderMatches(p: Patient, gender: string) {
    p.gender.Some? && EqualsIgnoreCase(p.gender.value, gender)
  }

  /** `p.doctor?.id?.toString() === filterDoctor` */
  predicate DoctorMatches(p: Patient, doctorId: string) {
    p.doctor.Some? && p.doctor.value.id.Some? && IntToDecimal(p.doctor.value.id.value) == doctorId
  }

  /** The age filter's choices. */
  datatype AgeBand = AnyAge | Child | Adult | Senior

  /** `const age = p.age || 0` and the band's bounds. */
  predicate InBand(age: Option<int>, band: AgeBand) {
    var a := OrZero(age);
    match band
    case AnyAge => true
    case Child => 0 <= a <= 18
    case Adult => 18 < a <= 60
    case Senior => a > 60
  }

  /** No age lies in two bands, and every age that is not negative (a missing one
      counts as 0) lies in one. */
  lemma BandsPartition(age: Option<int>)
    ensures !(InBand(age, Child) && InBand(age, Adult))
    ensures !(InBand(age, Child) && InBand(age, Senior))
    ensures !(InBand(age, Adult) && InBand(age, Senior))
    ensures OrZero(age) >= 0 <==> InBand(age, Child) || InBand(age, Adult) || InBand(age, Senior)
  {
  }

  /** A patient the screen lists; None is the filter's "all". */
  predicate Shown(p: Patient, term: string, gender: Option<string>, doctorId: Option<string>, band: AgeBand) {
    && (term == "" || PatientMatches(p, term))
    && (gender.None? || GenderMatches(p, gender.value))
    && (doctorId.None? || DoctorMatches(p, doctorId.value))
    && InBand(p.age, band)
  }

  function ShownBy(term: string, gender: Option<string>, doctorId: Option<string>, band: AgeBand): Patient -> bool {
    p => Shown(p, term, gender, doctorId, band)
  }

  /** The sort select's choices. */
  datatype SortKey = ByName | ByAge

  /** `(a.name || '').localeCompare(b.name || '')` */
  predicate NameOrder(a: Patient, b: Patient) {
    LexLe(if a.name.Some? then a.name.value else "", if b.name.Some? then b.name.value else "")
  }

  /** `(a.age || 0) - (b.age || 0)`: the youngest first. */
  predicate YoungestFirst(a: Patient, b: Patient) {
    OrZero(a.age) <= OrZero(b.age)
  }

  function OrderOf(key: SortKey): (Patient, Patient) -> bool {
    match key
    case ByName => NameOrder
    case ByAge => YoungestFirst
  }

  lemma OrderConnected(key: SortKey)
    ensures Connected(OrderOf(key))
  {
    if key == ByName {
      forall a: Patient, b: Patient ensures NameOrder(a, b) || NameOrder(b, a) {
        LexLeTotal(if a.name.Some? then a.name.value else "", if b.name.Some? then b.name.value else "");
      }
    }
  }

  /** The four filters of `filterAndSortPatients`, one after the other: together
      they keep exactly the patients meeting all four, in their original order. */
  method ApplyFilters(patients: seq<Patient>, searchTerm: string, gender: Option<string>, doctorId: Option<string>, band: AgeBand)
    returns (filtered: seq<Patient>)
    ensures filtered == Filter(ShownBy(searchTerm, gender, doctorId, band), patients)
  {
    var p1 := (p: Patient) => searchTerm == "" || PatientMatches(p, searchTerm);
    var p12 := (p: Patient) => p1(p) && (gender.None? || GenderMatches(p, gender.value));
    var p123 := (p: Patient) => p12(p) && (doctorId.None? || DoctorMatches(p, doctorId.value));
    var p1234 := ShownBy(searchTerm, gender, doctorId, band);

    filtered := patients;
    if searchTerm != "" {
      filtered := Filter((p: Patient) => PatientMatches(p, searchTerm), filtered);
      FilterExt((p: Patient) => PatientMatches(p, searchTerm), p1, patients);
    } else {
      FilterAll(p1, patients);
    }
    assert filtered == Filter(p1, patients);

    if gender.Some? {
      var q := (p: Patient) => GenderMatches(p, gender.value);
      FilterCompose(p1, q, p12, patients);
      filtered := Filter(q, filtered);
    } else {
      FilterExt(p1, p12, patients);
    }
    assert filtered == Filter(p12, patients);

    if doctorId.Some? {
      var q := (p: Patient) => DoctorMatches(p, doctorId.value);
      FilterCompose(p12, q, p123, patients);
      filtered := Filter(q, filtered);
    } else {
      FilterExt(p12, p123, patients);
    }
    assert filtered == Filter(p123, patients);

    if band != AnyAge {
      var q := (p: Patient) => InBand(p.age, band);
      FilterCompose(p123, q, p1234, patients);
      filtered := Filter(q, filtered);
    } else {
      FilterExt(p123, p1234, patients);
    }
  }

  /** `filterAndSortPatients`: the filters, then the sort.  The result is a
      reordering of the patients meeting all four filters (ties in their original
      order), in the chosen order. */
  method FilterAndSortPatients(patients: seq<Patient>, searchTerm: string, gender: Option<string>, doctorId: Option<string>,
                               band: AgeBand, key: SortKey)
    returns (r: seq<Patient>)
    ensures r == Sort(OrderOf(key), Filter(ShownBy(searchTerm, gender, doctorId, band), patients))
    ensures SortedBy(OrderOf(key), r)
    ensures multiset(r) == multiset(Filter(ShownBy(searchTerm, gender, doctorId, band), patients))
    ensures forall p :: p in r <==> p in patients && Shown(p, searchTerm, gender, doctorId, band)
    ensures key == ByAge ==> forall i :: 0 < i < |r| ==> OrZero(r[i - 1].age) <= OrZero(r[i].age)
  {
    var filtered := ApplyFilters(patients, searchTerm, gender, doctorId, band);
    r := Sort(OrderOf(key), filtered);
    OrderConnected(key);
    SortedSelection(OrderOf(key), ShownBy(searchTerm, gender, doctorId, band), patients);
    if key == ByAge {
      assert forall i :: 0 < i < |r| ==> YoungestFirst(r[i - 1], r[i]);
    }
  }

  /** Every patient matches the empty search and the "all" choices. */
  lemma NoFilterKeepsAll(patients: seq<Patient>)
    ensures Filter(ShownBy("", None, None, AnyAge), patients) == patients
  {
    FilterAll(ShownBy("", None, None, AnyAge), patients);
  }

  predicate IsMale(p: Patient) { p.gender.Some? && ToLower(p.gender.value) == "male" }
  predicate IsFemale(p: Patient) { p.gender.Some? && ToLower(p.gender.value) == "female" }
  predicate HasDoctor(p: Patient) { p.doctor.Some? }

  datatype Stats = Stats(total: nat, male: nat, female: nat, withDoctor: nat)

  /** `stats`: no patient is both male and female, so the two never add up to more
      than the total; neither does the count of patients with a doctor. */
  function StatsOf(patients: seq<Patient>): (r: Stats)
    ensures r.total == |patients|
    ensures r.male == |Filter(IsMale, patients)| && r.female == |Filter(IsFemale, patients)|
    ensures r.withDoctor == |Filter(HasDoctor, patients)|
    ensures r.male + r.female <= r.total && r.withDoctor <= r.total
  {
    forall p: Patient ensures !(IsMale(p) && IsFemale(p)) {
      if IsMale(p) { assert ToLower(p.gender.value)[0] == 'm'; }
    }
    CountDisjoint(IsMale, IsFemale, patients);
    Stats(|patients|, Count(IsMale, patients), Count(IsFemale, patients), Count(HasDoctor, patients))
  }
}
