/** The billing screen: the bills a session may see, the search / status / date
    filters with the newest-first order, and the revenue statistics. */
module BillingManagement {
  import opened Base
  import opened Entities
  import opened Text
  import opened Seqs
  import opened BillEntity

  /** `bill.appointment?.patient?.name` */
  function BillPatientName(b: BillData): Option<string> {
    if b.appointment.Some? then PatientNameOf(b.appointment.value) else None
  }

  /** `bill.appointment?.doctor?.name` */
  function BillDoctorName(b: BillData): Option<string> {
    if b.appointment.Some? then DoctorNameOf(b.appointment.value) else None
  }

  /** The patient filter of `loadData`. */
  predicate OwnBill(b: BillData, username: string) {
    MaybeContainsIgnoreCase(BillPatientName(b), username)
  }

  function OwnBy(username: string): BillData -> bool {
    b => OwnBill(b, username)
  }

  /** The bills `loadData` keeps.  A PATIENT session keeps the bills whose patient
      name contains the username ignoring case (a substring test, not equality);
      every other session keeps all.  Without a username the filter throws as soon
      as it meets a bill with a patient name; the error is caught and the list
      stays empty, which is None here. */
  function VisibleBills(role: Option<Role>, username: Option<string>, bills: seq<BillData>): (r: Option<seq<BillData>>)
    ensures role != Some(PATIENT) ==> r == Some(bills)
    ensures role == Some(PATIENT) && username.Some? ==>
              && r.Some? && SubseqOf(r.value, bills)
              && forall b :: b in r.value <==> b in bills && OwnBill(b, username.value)
    ensures role == Some(PATIENT) && username.None? ==>
              (r.None? <==> exists i :: 0 <= i < |bills| && BillPatientName(bills[i]).Some?)
    ensures role == Some(PATIENT) && r.Some? ==> |r.value| <= |bills|
  {
    if role != Some(PATIENT) then Some(bills)
    else if username.Some? then
      FilterSubseq(OwnBy(username.value), bills);
      Some(Filter(OwnBy(username.value), bills))
    else if exists i :: 0 <= i < |bills| && BillPatientName(bills[i]).Some? then None
    else
      // every patient name is missing, so every bill is left out
      Some([])
  }

  /** The patient filter is a substring test: a patient session named "ann" is
      shown the bill of a patient named "Joanna". */
  lemma SubstringNameSharesBills()
    ensures var joanna := BillData(Some(1), Some(Appointment(Some(1), Some(Patient(Some(2), Some("Joanna"), None, None, None, None, None, None)),
                                                              None, None, None, None, None)),
                                   None, None, None, None, None);
            VisibleBills(Some(PATIENT), Some("ann"), [joanna]) == Some([joanna])
  {
    var joanna := BillData(Some(1), Some(Appointment(Some(1), Some(Patient(Some(2), Some("Joanna"), None, None, None, None, None, None)),
                                                     None, None, None, None, None)),
                          None, None, None, None, None);
    assert ToLower("Joanna") == "joanna";
    assert ToLower("ann") == "ann";
    assert "joanna"[2..5] == "ann";
    ContainsAt("joanna", "ann", 2);
    assert OwnBy("ann")(joanna);
    assert Filter(OwnBy("ann"), [joanna]) == [joanna];
  }

  /** `bill.id.toString()` */
  function IdText(b: BillData): string {
    if b.id.Some? then IntToDecimal(b.id.value) else ""
  }

  /** The search of `filterBills`: the id's digits contain the lower-cased term, or
      the patient or doctor name contains it ignoring case. */
  predicate MatchesSearch(b: BillData, term: string) {
    Contains(IdText(b), ToLower(term))
    || MaybeContainsIgnoreCase(BillPatientName(b), term)
    || MaybeContainsIgnoreCase(BillDoctorName(b), term)
  }

  /** The date filter: "All Dates" or "Today". */
  datatype DateFilter = AllDates | Today

  /** `new Date(bill.billDate) >= today`: dated at or after midnight today. */
  predicate DatedToday(b: BillData, now: int) {
    OrZero(b.billDate) >= StartOfDay(now)
  }

  /** A bill the screen lists for the given term, status filter (None is "all")
      and date filter. */
  predicate Shown(b: BillData, term: string, status: Option<PaymentStatus>, date: DateFilter, now: int) {
    && (term == "" || MatchesSearch(b, term))
    && (status.None? || b.paymentStatus == status)
    && (date == AllDates || DatedToday(b, now))
  }

  function ShownBy(term: string, status: Option<PaymentStatus>, date: DateFilter, now: int): BillData -> bool {
    b => Shown(b, term, status, date, now)
  }

  /** The comparator `new Date(b.billDate) - new Date(a.billDate)`: a may precede b
      when it is not older. */
  predicate NewestFirst(a: BillData, b: BillData) {
    OrZero(b.billDate) <= OrZero(a.billDate)
  }

  lemma NewestFirstConnected()
    ensures Connected(NewestFirst)
  {
  }

  /** `filterBills`: the filters are applied one after the other, then the list is
      sorted newest first.  The result is exactly the bills meeting all three
      filters, newest first, ties in their original order. */
  method FilterBills(bills: seq<BillData>, searchTerm: string, status: Option<PaymentStatus>, date: DateFilter, now: int)
    returns (r: seq<BillData>)
    requires searchTerm != "" ==> forall i :: 0 <= i < |bills| ==> bills[i].id.Some?
    ensures r == Sort(NewestFirst, Filter(ShownBy(searchTerm, status, date, now), bills))
    ensures SortedBy(NewestFirst, r)
    ensures multiset(r) == multiset(Filter(ShownBy(searchTerm, status, date, now), bills))
    ensures forall b :: b in r <==> b in bills && Shown(b, searchTerm, status, date, now)
  {
    var p1 := (b: BillData) => searchTerm == "" || MatchesSearch(b, searchTerm);
    var p12 := (b: BillData) => p1(b) && (status.None? || b.paymentStatus == status);
    var p123 := ShownBy(searchTerm, status, date, now);

    var filtered := bills;
    if searchTerm != "" {
      filtered := Filter((b: BillData) => MatchesSearch(b, searchTerm), filtered);
      FilterExt((b: BillData) => MatchesSearch(b, searchTerm), p1, bills);
    } else {
      FilterAll(p1, bills);
    }
    assert filtered == Filter(p1, bills);

    if status.Some? {
      var q := (b: BillData) => b.paymentStatus == status;
      FilterCompose(p1, q, p12, bills);
      filtered := Filter(q, filtered);
    } else {
      FilterExt(p1, p12, bills);
    }
    assert filtered == Filter(p12, bills);

    if date == Today {
      var q := (b: BillData) => DatedToday(b, now);
      FilterCompose(p12, q, p123, bills);
      filtered := Filter(q, filtered);
    } else {
      FilterExt(p12, p123, bills);
    }
    assert filtered == Filter(p123, bills);

    r := Sort(NewestFirst, filtered);
    NewestFirstConnected();
    SortedSelection(NewestFirst, p123, bills);
  }

  /** `b.totalAmount || 0` */
  function TotalOr0(b: BillData): int {
    OrZero(b.totalAmount)
  }

  predicate IsPaid(b: BillData) { b.paymentStatus == Some(PAID) }
  predicate IsPending(b: BillData) { b.paymentStatus == Some(PENDING) }
  /** Neither paid nor pending: cancelled, or without a status. */
  predicate IsOther(b: BillData) { !IsPaid(b) && !IsPending(b) }

  /** `stats.totalRevenue` */
  function TotalRevenue(bills: seq<BillData>): int {
    Sum(TotalOr0, Filter(IsPaid, bills))
  }

  /** `stats.pendingAmount` */
  function PendingAmount(bills: seq<BillData>): int {
    Sum(TotalOr0, Filter(IsPending, bills))
  }

  /** Revenue and pending amount split the sum of all totals with the cancelled
      (and status-less) bills, which are in neither. */
  lemma StatsPartition(bills: seq<BillData>)
    ensures TotalRevenue(bills) + PendingAmount(bills) + Sum(TotalOr0, Filter(IsOther, bills)) == Sum(TotalOr0, bills)
  {
    var notPaid := (b: BillData) => !IsPaid(b);
    SumSplit(TotalOr0, IsPaid, notPaid, bills);
    var rest := Filter(notPaid, bills);
    var notPending := (b: BillData) => !IsPending(b);
    SumSplit(TotalOr0, IsPending, notPending, rest);
    FilterCompose(notPaid, IsPending, IsPending, bills);
    FilterCompose(notPaid, notPending, IsOther, bills);
  }

  /** A cancelled bill adds to neither statistic, while it is counted in `totalBills`. */
  lemma CancelledBillInNeitherSum(bills: seq<BillData>, b: BillData)
    requires b.paymentStatus == Some(PaymentStatus.CANCELLED)
    ensures TotalRevenue(bills + [b]) == TotalRevenue(bills)
    ensures PendingAmount(bills + [b]) == PendingAmount(bills)
    ensures |bills + [b]| == |bills| + 1
  {
    FilterAppend(IsPaid, bills, [b]);
    FilterAppend(IsPending, bills, [b]);
    assert Filter(IsPaid, [b]) == [];
    assert Filter(IsPending, [b]) == [];
    assert Filter(IsPaid, bills) + [] == Filter(IsPaid, bills);
    assert Filter(IsPending, bills) + [] == Filter(IsPending, bills);
  }
}
