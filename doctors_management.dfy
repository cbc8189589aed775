/** The doctor management screen: the search, specialization, experience and status
    filters with the chosen order, the statistics and the specialization list. */
module DoctorsManagement {
  import opened Base
  import opened Entities
  import opened Text
  import opened Seqs
  import DoctorsTable

  /** The search: name, email or specialization contains the term ignoring case. */
  predicate DoctorMatches(d: Doctor, term: string) {
    MaybeContainsIgnoreCase(d.name, term)
    || MaybeContainsIgnoreCase(d.email, term)
    || MaybeContainsIgnoreCase(d.specialization, term)
  }

  /** The experience filter's choices. */
  datatype ExperienceBand = AnyExperience | UpTo5 | From5To10 | Over10

  /** `const exp = doc.experience || 0` and the band's bounds. */
  predicate InBand(experience: Option<int>, band: ExperienceBand) {
    var exp := OrZero(experience);
    match band
    case AnyExperience => true
    case UpTo5 => 0 <= exp <= 5
    case From5To10 => 5 < exp <= 10
    case Over10 => exp > 10
  }

  /** No experience lies in two bands, and every experience that is not negative
      (a missing one counts as 0) lies in one. */
  lemma BandsPartition(experience: Option<int>)
    ensures !(InBand(experience, UpTo5) && InBand(experience, From5To10))
    ensures !(InBand(experience, UpTo5) && InBand(experience, Over10))
    ensures !(InBand(experience, From5To10) && InBand(experience, Over10))
    ensures OrZero(experience) >= 0 <==> InBand(experience, UpTo5) || InBand(experience, From5To10) || InBand(experience, Over10)
  {
  }

  /** `doc.status || 'ACTIVE'` */
  function StatusOrActive(d: Doctor): string {
    if Truthy(d.status) then d.status.value else "ACTIVE"
  }

  /** The status filter compares upper-cased. */
  predicate StatusMatches(d: Doctor, filter: string) {
    ToUpper(StatusOrActive(d)) == ToUpper(filter)
  }

  /** Choosing "ACTIVE" keeps exactly the doctors the table badges as active. */
  lemma ActiveFilterIsActiveBadge(d: Doctor)
    ensures StatusMatches(d, "ACTIVE") <==> DoctorsTable.IsActive(d.status)
  {
    assert ToUpper("ACTIVE") == "ACTIVE";
  }

  /** A doctor the screen lists; None is the filter's "all". */
  predicate Shown(d: Doctor, term: string, spec: Option<string>, band: ExperienceBand, status: Option<string>) {
    && (term == "" || DoctorMatches(d, term))
    && (spec.None? || d.specialization == spec)
    && InBand(d.experience, band)
    && (status.None? || StatusMatches(d, status.value))
  }

  function ShownBy(term: string, spec: Option<string>, band: ExperienceBand, status: Option<string>): Doctor -> bool {
    d => Shown(d, term, spec, band, status)
  }

  /** The sort select's choices. */
  datatype SortKey = ByName | ByExperience

  /** The name a comparison reads; a missing one never reaches the comparator (see
      the precondition of `FilterAndSortDoctors`). */
  function NameText(d: Doctor): string {
    if d.name.Some? then d.name.value else ""
  }

  /** `a.name.localeCompare(b.name)` */
  predicate NameOrder(a: Doctor, b: Doctor) {
    LexLe(NameText(a), NameText(b))
  }

  /** `(b.experience || 0) - (a.experience || 0)`: the more experienced first. */
  predicate MostExperiencedFirst(a: Doctor, b: Doctor) {
    OrZero(b.experience) <= OrZero(a.experience)
  }

  function OrderOf(key: SortKey): (Doctor, Doctor) -> bool {
    match key
    case ByName => NameOrder
    case ByExperience => MostExperiencedFirst
  }

  lemma OrderConnected(key: SortKey)
    ensures Connected(OrderOf(key))
  {
    if key == ByName {
      forall a: Doctor, b: Doctor ensures NameOrder(a, b) || NameOrder(b, a) {
        LexLeTotal(NameText(a), NameText(b));
      }
    }
  }

  /** The four filters of `filterAndSortDoctors`, one after the other: together
      they keep exactly the doctors meeting all four, in their original order.
      The search lower-cases every doctor's name without a null check. */
  method ApplyFilters(doctors: seq<Doctor>, searchTerm: string, spec: Option<string>, band: ExperienceBand,
                      status: Option<string>)
    returns (filtered: seq<Doctor>)
    requires searchTerm != "" ==> forall i :: 0 <= i < |doctors| ==> doctors[i].name.Some?
    ensures filtered == Filter(ShownBy(searchTerm, spec, band, status), doctors)
  {
    var p1 := (d: Doctor) => searchTerm == "" || DoctorMatches(d, searchTerm);
    var p12 := (d: Doctor) => p1(d) && (spec.None? || d.specialization == spec);
    var p123 := (d: Doctor) => p12(d) && InBand(d.experience, band);
    var p1234 := ShownBy(searchTerm, spec, band, status);

    filtered := doctors;
    if searchTerm != "" {
      filtered := Filter((d: Doctor) => DoctorMatches(d, searchTerm), filtered);
      FilterExt((d: Doctor) => DoctorMatches(d, searchTerm), p1, doctors);
    } else {
      FilterAll(p1, doctors);
    }
    assert filtered == Filter(p1, doctors);

    if spec.Some? {
      var q := (d: Doctor) => d.specialization == spec;
      FilterCompose(p1, q, p12, doctors);
      filtered := Filter(q, filtered);
    } else {
      FilterExt(p1, p12, doctors);
    }
    assert filtered == Filter(p12, doctors);

    if band != AnyExperience {
      var q := (d: Doctor) => InBand(d.experience, band);
      FilterCompose(p12, q, p123, doctors);
      filtered := Filter(q, filtered);
    } else {
      FilterExt(p12, p123, doctors);
    }
    assert filtered == Filter(p123, doctors);

    if status.Some? {
      var q := (d: Doctor) => StatusMatches(d, status.value);
      FilterCompose(p123, q, p1234, doctors);
      filtered := Filter(q, filtered);
    } else {
      FilterExt(p123, p1234, doctors);
    }
  }

  /** `filterAndSortDoctors`: the filters, then the sort.  The result is, in the
      chosen order, exactly the doctors meeting all four filters (ties in their
      original order).  The name comparison calls `localeCompare` on a sorted
      doctor's name, so a missing one there throws as well. */
  method FilterAndSortDoctors(doctors: seq<Doctor>, searchTerm: string, spec: Option<string>, band: ExperienceBand,
                              status: Option<string>, key: SortKey)
    returns (r: seq<Doctor>)
    requires searchTerm != "" ==> forall i :: 0 <= i < |doctors| ==> doctors[i].name.Some?
    requires key == ByName && Count(ShownBy(searchTerm, spec, band, status), doctors) >= 2 ==>
               forall i :: 0 <= i < |doctors| && Shown(doctors[i], searchTerm, spec, band, status) ==> doctors[i].name.Some?
    ensures r == Sort(OrderOf(key), Filter(ShownBy(searchTerm, spec, band, status), doctors))
    ensures SortedBy(OrderOf(key), r)
    ensures multiset(r) == multiset(Filter(ShownBy(searchTerm, spec, band, status), doctors))
    ensures forall d :: d in r <==> d in doctors && Shown(d, searchTerm, spec, band, status)
    ensures key == ByExperience ==> forall i :: 0 < i < |r| ==> OrZero(r[i].experience) <= OrZero(r[i - 1].experience)
  {
    var filtered := ApplyFilters(doctors, searchTerm, spec, band, status);
    r := Sort(OrderOf(key), filtered);
    OrderConnected(key);
    SortedSelection(OrderOf(key), ShownBy(searchTerm, spec, band, status), doctors);
    if key == ByExperience {
      assert forall i :: 0 < i < |r| ==> MostExperiencedFirst(r[i - 1], r[i]);
    }
  }

  /** `(d.status || 'ACTIVE').toUpperCase() === 'ACTIVE'` */
  predicate CountsActive(d: Doctor) {
    ToUpper(StatusOrActive(d)) == "ACTIVE"
  }

  /** `(d.status || '').toUpperCase() === 'INACTIVE'`: a missing status is never
      inactive. */
  predicate CountsInactive(d: Doctor) {
    Truthy(d.status) && ToUpper(d.status.value) == "INACTIVE"
  }

  datatype Stats = Stats(total: nat, active: nat, inactive: nat)

  /** `stats`: a doctor without a status counts as active; no doctor counts as
      both, so active and inactive never add up to more than the total. */
  function StatsOf(doctors: seq<Doctor>): (r: Stats)
    ensures r.total == |doctors|
    ensures r.active == |Filter(CountsActive, doctors)| && r.inactive == |Filter(CountsInactive, doctors)|
    ensures r.active + r.inactive <= r.total
  {
    forall d: Doctor ensures !(CountsActive(d) && CountsInactive(d)) {
      if CountsInactive(d) {
        assert ToUpper(StatusOrActive(d))[0] == 'I';
      }
    }
    CountDisjoint(CountsActive, CountsInactive, doctors);
    Stats(|doctors|, Count(CountsActive, doctors), Count(CountsInactive, doctors))
  }

  /** A doctor without a status is counted as active and not as inactive. */
  lemma MissingStatusCountsActive(d: Doctor)
    requires d.status.None?
    ensures CountsActive(d) && !CountsInactive(d)
  {
    assert ToUpper("ACTIVE") == "ACTIVE";
  }

  /** `doctors.map(d => d.specialization).filter(Boolean)` */
  function GivenSpecializations(doctors: seq<Doctor>): (r: seq<string>)
    ensures forall s :: s in r <==> s != "" && exists i :: 0 <= i < |doctors| && doctors[i].specialization == Some(s)
    decreases |doctors|
  {
    if doctors == [] then []
    else
      var rest := GivenSpecializations(doctors[1..]);
      assert forall s :: (exists i :: 0 <= i < |doctors| && doctors[i].specialization == Some(s)) <==>
                         doctors[0].specialization == Some(s) || exists i :: 0 <= i < |doctors[1..]| && doctors[1..][i].specialization == Some(s) by {
        forall s | exists i :: 0 <= i < |doctors| && doctors[i].specialization == Some(s)
          ensures doctors[0].specialization == Some(s) || exists i :: 0 <= i < |doctors[1..]| && doctors[1..][i].specialization == Some(s)
        {
          var i :| 0 <= i < |doctors| && doctors[i].specialization == Some(s);
          if i > 0 { assert doctors[1..][i - 1] == doctors[i]; }
        }
      }
      if Truthy(doctors[0].specialization) then [doctors[0].specialization.value] + rest else rest
  }

  /** `specializations`: the distinct non-empty specializations of the doctors, in
      order of first appearance; the choices of the specialization filter. */
  function Specializations(doctors: seq<Doctor>): (r: seq<string>)
    ensures forall i, j :: 0 <= i < j < |r| ==> r[i] != r[j]
    ensures forall s :: s in r <==> s != "" && exists i :: 0 <= i < |doctors| && doctors[i].specialization == Some(s)
  {
    var given := GivenSpecializations(doctors);
    var r := Dedup(given);
    assert forall s :: s in r <==> s in given by {
      forall s | s in given ensures s in r {
        var i :| 0 <= i < |given| && given[i] == s;
      }
    }
    r
  }
}
