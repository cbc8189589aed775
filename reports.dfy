/** The lab-report screen: the list request, the search and the role-dependent
    upload and download buttons. */
module Reports {
  import opened Base
  import opened Entities
  import opened Text
  import opened Seqs

  /** The query of `loadReports`: a PATIENT session asks for its own reports by
      patient name (None: no parameter is sent); every other session asks for all. */
  function QueryPatientName(role: Option<Role>, username: Option<string>): (r: Option<string>)
    ensures role == Some(PATIENT) ==> r == username
    ensures role != Some(PATIENT) ==> r.None?
  {
    if role == Some(PATIENT) then username else None
  }

  /** The search of `filteredReports`: test, doctor or patient name contains the
      term ignoring case. */
  predicate ReportMatches(rep: LabReport, term: string) {
    MaybeContainsIgnoreCase(rep.testName, term)
    || MaybeContainsIgnoreCase(rep.doctorName, term)
    || MaybeContainsIgnoreCase(rep.patientName, term)
  }

  /** The filter lower-cases the test name of every report, the doctor name when the
      test name does not match and the patient name when neither matches, with no
      null check: a missing one throws while rendering. */
  predicate Searchable(rep: LabReport, term: string) {
    && rep.testName.Some?
    && (ContainsIgnoreCase(rep.testName.value, term) || rep.doctorName.Some?)
    && (ContainsIgnoreCase(rep.testName.value, term) || ContainsIgnoreCase(rep.doctorName.value, term) || rep.patientName.Some?)
  }

  function MatchesBy(term: string): LabReport -> bool {
    rep => ReportMatches(rep, term)
  }

  /** `filteredReports`: the reports matching the term, in the server's order. */
  function FilteredReports(reports: seq<LabReport>, term: string): (r: seq<LabReport>)
    requires forall i :: 0 <= i < |reports| ==> Searchable(reports[i], term)
    ensures SubseqOf(r, reports)
    ensures forall rep :: rep in r <==> rep in reports && ReportMatches(rep, term)
  {
    FilterSubseq(MatchesBy(term), reports);
    Filter(MatchesBy(term), reports)
  }

  /** Before anything is typed every report is listed. */
  lemma EmptySearchKeepsAll(reports: seq<LabReport>)
    requires forall i :: 0 <= i < |reports| ==> Searchable(reports[i], "")
    ensures FilteredReports(reports, "") == reports
  {
    forall i | 0 <= i < |reports| ensures MatchesBy("")(reports[i]) {
      ContainsEmpty(ToLower(reports[i].testName.value));
    }
    FilterAll(MatchesBy(""), reports);
  }

  /** The upload button is an administrator's only. */
  function CanUpload(role: Option<Role>): (r: bool)
    ensures r <==> role == Some(ADMIN)
  {
    role == Some(ADMIN)
  }

  /** The download button is a patient's only. */
  function CanDownload(role: Option<Role>): (r: bool)
    ensures r <==> role == Some(PATIENT)
  {
    role == Some(PATIENT)
  }

  /** No session sees both buttons. */
  lemma UploadAndDownloadExclusive(role: Option<Role>)
    ensures !(CanUpload(role) && CanDownload(role))
  {
  }
}
