/** The bill-creation form: the picker of unbilled appointments, the editable list
    of test line items whose costs add up to the test charges, the displayed total
    and the payload sent to the server. */
module CreateBillModal {
  import opened Base
  import opened Entities
  import opened Seqs
  import opened BillEntity
  import LabTestSelector
  import Billing

  /** A line item of the form; `cost` is None while the cost box is blank (or holds
      text that is not a number). */
  datatype TestItem = TestItem(name: string, cost: Option<int>)

  /** `parseFloat(item.cost) || 0` */
  function ItemCost(item: TestItem): int {
    OrZero(item.cost)
  }

  /** The test charges: the sum of the item costs, a blank cost counting as 0. */
  function TestCharges(items: seq<TestItem>): int {
    Sum(ItemCost, items)
  }

  /** Some existing bill references this appointment (`bill.appointment?.id === apt.id`). */
  predicate Billed(a: Appointment, bills: seq<BillData>) {
    exists i :: 0 <= i < |bills| && bills[i].appointment.Some? && bills[i].appointment.value.id == a.id
  }

  /** An appointment the picker offers: not billed yet and not cancelled. */
  predicate Eligible(a: Appointment, bills: seq<BillData>) {
    !Billed(a, bills) && a.status != Some(AppointmentStatus.CANCELLED)
  }

  /** `unbilledAppointments`: exactly the eligible appointments, in their original order. */
  function Unbilled(appointments: seq<Appointment>, bills: seq<BillData>): (r: seq<Appointment>)
    ensures SubseqOf(r, appointments)
    ensures forall i :: 0 <= i < |r| ==> !Billed(r[i], bills) && r[i].status != Some(AppointmentStatus.CANCELLED)
    ensures forall i :: 0 <= i < |appointments| && Eligible(appointments[i], bills) ==> appointments[i] in r
  {
    var eligible := (a: Appointment) => Eligible(a, bills);
    FilterSubseq(eligible, appointments);
    Filter(eligible, appointments)
  }

  /** The position of the first appointment with that id, if any. */
  function FirstWithId(appointments: seq<Appointment>, id: int): (r: Option<nat>)
    ensures r.Some? ==> r.value < |appointments| && appointments[r.value].id == Some(id)
    ensures r.Some? ==> forall i :: 0 <= i < r.value ==> appointments[i].id != Some(id)
    ensures r.None? <==> forall i :: 0 <= i < |appointments| ==> appointments[i].id != Some(id)
    decreases |appointments|
  {
    if appointments == [] then None
    else if appointments[0].id == Some(id) then Some(0)
    else
      var r := FirstWithId(appointments[1..], id);
      if r.Some? then Some(r.value + 1) else None
  }

  /** `appointments.find(a => a.id.toString() === aptId)`: the first appointment
      with that id. */
  function FindAppointment(appointments: seq<Appointment>, id: int): (r: Option<Appointment>)
    ensures r.Some? ==> exists k :: 0 <= k < |appointments| && appointments[k] == r.value && r.value.id == Some(id)
                                    && forall i :: 0 <= i < k ==> appointments[i].id != Some(id)
    ensures r.None? <==> forall i :: 0 <= i < |appointments| ==> appointments[i].id != Some(id)
  {
    var k := FirstWithId(appointments, id);
    if k.Some? then Some(appointments[k.value]) else None
  }

  /** `apt.doctor?.consultationFee || 0` */
  function FeeOf(a: Appointment): int {
    if a.doctor.Some? then OrZero(a.doctor.value.consultationFee) else 0
  }

  /** `apt.patient?.labTestsRequired` */
  function LabTestsOf(a: Appointment): Option<string> {
    if a.patient.Some? then a.patient.value.labTestsRequired else None
  }

  /** One blank-cost item per test parsed from the patient's required tests. */
  function InitialItems(a: Appointment): (r: seq<TestItem>)
    ensures |r| == |LabTestSelector.ParseTests(LabTestsOf(a))|
    ensures forall i :: 0 <= i < |r| ==> r[i] == TestItem(LabTestSelector.ParseTests(LabTestsOf(a))[i], None)
  {
    var tests := LabTestSelector.ParseTests(LabTestsOf(a));
    seq(|tests|, i requires 0 <= i < |tests| => TestItem(tests[i], None))
  }

  /** Items whose costs are all blank charge nothing. */
  lemma {:induction false} BlankItemsChargeNothing(items: seq<TestItem>)
    requires forall i :: 0 <= i < |items| ==> items[i].cost.None?
    ensures TestCharges(items) == 0
    decreases |items|
  {
    if items != [] {
      BlankItemsChargeNothing(items[1..]);
    }
  }

  /** The items a freshly selected appointment starts with charge nothing. */
  lemma InitialItemsChargeNothing(a: Appointment)
    ensures TestCharges(InitialItems(a)) == 0
  {
    BlankItemsChargeNothing(InitialItems(a));
  }

  /** Appending an item adds its cost to the charges. */
  lemma AddItemCharges(items: seq<TestItem>, item: TestItem)
    ensures TestCharges(items + [item]) == TestCharges(items) + ItemCost(item)
  {
    SumAppend(ItemCost, items, [item]);
    assert Sum(ItemCost, [item]) == ItemCost(item);
  }

  /** Removing the item at i subtracts its cost from the charges. */
  lemma RemoveItemCharges(items: seq<TestItem>, i: nat)
    requires i < |items|
    ensures TestCharges(items[..i] + items[i + 1..]) == TestCharges(items) - ItemCost(items[i])
  {
    SumRemove(ItemCost, items, i);
  }

  /** Editing the cost at i changes the charges by the difference of the two costs. */
  lemma EditCostCharges(items: seq<TestItem>, i: nat, cost: Option<int>)
    requires i < |items|
    ensures TestCharges(items[i := items[i].(cost := cost)]) == TestCharges(items) - ItemCost(items[i]) + OrZero(cost)
  {
    SumUpdate(ItemCost, items, i, items[i].(cost := cost));
  }

  /** A reference to a saved appointment: `{ id }`. */
  function AppointmentRef(id: int): Appointment {
    Appointment(Some(id), None, None, None, None, None, None)
  }

  /** The body of the create request: the appointment id, the fee and the charges
      (invalid amounts as 0) and the status, and nothing else — the line items are
      not sent. */
  function CreatePayload(appointmentId: int, fee: Option<int>, charges: Option<int>, status: PaymentStatus): (r: BillData)
    ensures r.AppointmentId() == Some(appointmentId)
    ensures r.consultationFee == Some(OrZero(fee)) && r.testCharges == Some(OrZero(charges))
    ensures r.paymentStatus == Some(status)
    ensures r.id.None? && r.totalAmount.None? && r.billDate.None?
  {
    BillData(None, Some(AppointmentRef(appointmentId)), Some(OrZero(fee)), Some(OrZero(charges)), None, Some(status), None)
  }

  /** The server stores the total the form displays: fee + charges. */
  lemma StoredTotalIsDisplayedTotal(appointmentId: int, fee: Option<int>, charges: Option<int>, status: PaymentStatus,
                                    stored: map<int, Appointment>, now: int)
    ensures Billing.Prepared(CreatePayload(appointmentId, fee, charges, status), stored, now).totalAmount
            == Some(OrZero(fee) + OrZero(charges))
    ensures Billing.Prepared(CreatePayload(appointmentId, fee, charges, status), stored, now).paymentStatus == Some(status)
  {
  }

  /** The form's state.  `appointmentId` is None while "-- Select Appointment --"
      is chosen; a money box holding no number is None. */
  class CreateBillForm {
    var appointmentId: Option<int>
    var consultationFee: Option<int>
    var testCharges: Option<int>
    var paymentStatus: PaymentStatus
    var testItems: seq<TestItem>
    var customTestName: string
    var customTestCost: Option<int>
    var error: string
    const appointments: seq<Appointment>
    const existingBills: seq<BillData>

    /** The effect on `testItems` has run: the read-only charges box shows the sum
        of the item costs. */
    ghost predicate Valid()
      reads this
    {
      testCharges == Some(TestCharges(testItems))
    }

    /** The form as mounted: nothing selected, status PENDING, no items; the
        effect on `testItems` has set the charges to 0. */
    constructor (appointments: seq<Appointment>, existingBills: seq<BillData>)
      ensures Valid()
      ensures appointmentId.None? && consultationFee.None? && testCharges == Some(0)
      ensures paymentStatus == PENDING && testItems == [] && customTestName == "" && customTestCost.None?
      ensures error == "" && this.appointments == appointments && this.existingBills == existingBills
    {
      appointmentId := None;
      consultationFee := None;
      paymentStatus := PENDING;
      testItems := [];
      customTestName := "";
      customTestCost := None;
      error := "";
      this.appointments := appointments;
      this.existingBills := existingBills;
      testCharges := Some(0);
    }

    /** The effect that runs after every change of `testItems`. */
    method SyncTestCharges()
      modifies this`testCharges
      ensures Valid()
    {
      var total := 0;
      var i := 0;
      while i < |testItems|
        invariant 0 <= i <= |testItems|
        invariant total == TestCharges(testItems[..i])
      {
        SumAppend(ItemCost, testItems[..i], [testItems[i]]);
        assert testItems[..i + 1] == testItems[..i] + [testItems[i]];
        total := total + ItemCost(testItems[i]);
        i := i + 1;
      }
      assert testItems[..i] == testItems;
      testCharges := Some(total);
    }

    /** `handleAppointmentChange`: a found appointment sets the fee from its doctor
        and replaces the items (earlier edits are lost) by one blank item per
        required test; an id that matches nothing clears the fee and empties the
        items.  Either way the charges then follow the items. */
    method HandleAppointmentChange(aptId: Option<int>)
      modifies this`appointmentId, this`consultationFee, this`testCharges, this`testItems
      ensures Valid()
      ensures appointmentId == aptId
      ensures var found := if aptId.Some? then FindAppointment(appointments, aptId.value) else None;
        && (found.Some? ==> consultationFee == Some(FeeOf(found.value)) && testItems == InitialItems(found.value))
        && (found.None? ==> consultationFee.None? && testItems == [])
      ensures testCharges == Some(0)
    {
      var apt := if aptId.Some? then FindAppointment(appointments, aptId.value) else None;
      appointmentId := aptId;
      if apt.Some? {
        consultationFee := Some(FeeOf(apt.value));
        testItems := InitialItems(apt.value);
        InitialItemsChargeNothing(apt.value);
      } else {
        consultationFee := None;
        testCharges := None;
        testItems := [];
      }
      SyncTestCharges();
    }

    /** `handleChange` on the fee box. */
    method HandleFeeChange(value: Option<int>)
      modifies this`consultationFee
      ensures consultationFee == value
    {
      consultationFee := value;
    }

    /** `handleChange` on the status select. */
    method HandleStatusChange(value: PaymentStatus)
      modifies this`paymentStatus
      ensures paymentStatus == value
    {
      paymentStatus := value;
    }

    /** `handleTestCostChange`: only the cost of item `index` changes, and the
        charges move by the difference. */
    method HandleTestCostChange(index: nat, value: Option<int>)
      requires Valid() && index < |testItems|
      modifies this`testItems, this`testCharges
      ensures Valid()
      ensures testItems == old(testItems)[index := old(testItems)[index].(cost := value)]
      ensures testCharges == Some(old(TestCharges(testItems)) - ItemCost(old(testItems)[index]) + OrZero(value))
    {
      testItems := testItems[index := testItems[index].(cost := value)];
      EditCostCharges(old(testItems), index, value);
      SyncTestCharges();
    }

    /** `handleAddCustomTest`: with both a name and a cost, appends exactly one
        item and clears both boxes; otherwise nothing changes. */
    method HandleAddCustomTest()
      requires Valid()
      modifies this`testItems, this`testCharges, this`customTestName, this`customTestCost
      ensures Valid()
      ensures old(customTestName) != "" && old(customTestCost).Some? ==>
                testItems == old(testItems) + [TestItem(old(customTestName), old(customTestCost))]
                && customTestName == "" && customTestCost.None?
                && testCharges == Some(old(TestCharges(testItems)) + old(customTestCost).value)
      ensures !(old(customTestName) != "" && old(customTestCost).Some?) ==>
                testItems == old(testItems) && customTestName == old(customTestName)
                && customTestCost == old(customTestCost) && testCharges == old(testCharges)
    {
      if customTestName != "" && customTestCost.Some? {
        var item := TestItem(customTestName, customTestCost);
        AddItemCharges(testItems, item);
        testItems := testItems + [item];
        customTestName := "";
        customTestCost := None;
        SyncTestCharges();
      }
    }

    /** `handleRemoveTest`: the item at `index` is removed and the others keep
        their order. */
    method HandleRemoveTest(index: nat)
      requires Valid() && index < |testItems|
      modifies this`testItems, this`testCharges
      ensures Valid()
      ensures testItems == old(testItems)[..index] + old(testItems)[index + 1..]
      ensures |testItems| == |old(testItems)| - 1
      ensures testCharges == Some(old(TestCharges(testItems)) - ItemCost(old(testItems)[index]))
    {
      RemoveItemCharges(testItems, index);
      testItems := testItems[..index] + testItems[index + 1..];
      SyncTestCharges();
    }

    /** `calculateTotal`: fee + charges, an invalid amount counting as 0. */
    function CalculateTotal(): (r: int)
      reads this
      requires Valid()
      ensures r == OrZero(consultationFee) + TestCharges(testItems)
    {
      OrZero(consultationFee) + OrZero(testCharges)
    }

    /** `handleSubmit`: without a selected appointment the error is set and
        nothing is sent; otherwise the create request is the payload.  A failed
        request (`createFails`) shows the generic error. */
    method HandleSubmit(createFails: bool) returns (request: Option<BillData>)
      modifies this`error
      ensures appointmentId.None? ==> request.None? && error == "Please select an appointment"
      ensures appointmentId.Some? ==>
                request == Some(CreatePayload(appointmentId.value, consultationFee, testCharges, paymentStatus))
                && error == (if createFails then "Failed to create bill. Please try again." else "")
    {
      error := "";
      if appointmentId.None? {
        error := "Please select an appointment";
        return None;
      }
      request := Some(CreatePayload(appointmentId.value, consultationFee, testCharges, paymentStatus));
      if createFails {
        error := "Failed to create bill. Please try again.";
      }
    }
  }
}
