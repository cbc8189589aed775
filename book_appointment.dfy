/** The doctor list a patient books from: the search over doctors and the dialog
    state. */
module BookAppointment {
  import opened Base
  import opened Entities
  import opened Text
  import opened Seqs

  /** `doctor.name.toLowerCase().includes(t) || doctor.specialization...`; the
      specialization is read only when the name does not match. */
  predicate DoctorMatches(d: Doctor, term: string) {
    (d.name.Some? && ContainsIgnoreCase(d.name.value, term))
    || (d.specialization.Some? && ContainsIgnoreCase(d.specialization.value, term))
  }

  /** The filter reads a name, and a specialization when the name does not match,
      without a null check: a missing one throws inside the effect. */
  predicate Searchable(d: Doctor, term: string) {
    d.name.Some? && (ContainsIgnoreCase(d.name.value, term) || d.specialization.Some?)
  }

  function MatchesBy(term: string): Doctor -> bool {
    d => DoctorMatches(d, term)
  }

  /** `filterDoctors`: an empty term lists every doctor; otherwise the doctors
      whose name or specialization contains the term ignoring case, in their
      original order. */
  function FilterDoctors(doctors: seq<Doctor>, term: string): (r: seq<Doctor>)
    requires term != "" ==> forall i :: 0 <= i < |doctors| ==> Searchable(doctors[i], term)
    ensures term == "" ==> r == doctors
    ensures SubseqOf(r, doctors)
    ensures term != "" ==> forall d :: d in r <==> d in doctors && DoctorMatches(d, term)
  {
    if term == "" then
      SubseqRefl(doctors);
      doctors
    else
      FilterSubseq(MatchesBy(term), doctors);
      Filter(MatchesBy(term), doctors)
  }

  /** The page's dialog state. */
  class BookAppointmentPage {
    var selectedDoctor: Option<Doctor>
    var showModal: bool

    constructor ()
      ensures selectedDoctor.None? && !showModal
    {
      selectedDoctor := None;
      showModal := false;
    }

    /** `handleBookClick`: opens the dialog for that doctor. */
    method HandleBookClick(d: Doctor)
      modifies this
      ensures selectedDoctor == Some(d) && showModal
    {
      selectedDoctor := Some(d);
      showModal := true;
    }

    /** `handleBookingSuccess`: closes the dialog and forgets the doctor. */
    method HandleBookingSuccess()
      modifies this
      ensures selectedDoctor.None? && !showModal
    {
      showModal := false;
      selectedDoctor := None;
    }
  }
}
