/** The bill-editing form: three fields pre-filled from the bill, a displayed
    total, and an update request carrying exactly those three fields. */
module EditBillModal {
  import opened Base
  import opened BillEntity
  import Billing

  /** `bill.consultationFee || 0` and `bill.testCharges || 0`. */
  function InitialAmount(x: Option<int>): (r: Option<int>)
    ensures r == Some(OrZero(x))
    ensures x.Some? && x.value != 0 ==> r == x
  {
    if x.Some? && x.value != 0 then x else Some(0)
  }

  /** `bill.paymentStatus || 'PENDING'` */
  function InitialStatus(s: Option<PaymentStatus>): (r: PaymentStatus)
    ensures s.Some? ==> r == s.value
    ensures s.None? ==> r == PENDING
  {
    if s.Some? then s.value else PENDING
  }

  /** The update body: fee and charges (an invalid amount sent as 0) and the status;
      the id, appointment, total and date are never sent. */
  function UpdatePayload(fee: Option<int>, charges: Option<int>, status: PaymentStatus): (r: BillData)
    ensures r.consultationFee == Some(OrZero(fee)) && r.testCharges == Some(OrZero(charges))
    ensures r.paymentStatus == Some(status)
    ensures r.id.None? && r.appointment.None? && r.totalAmount.None? && r.billDate.None?
  {
    BillData(None, None, Some(OrZero(fee)), Some(OrZero(charges)), None, Some(status), None)
  }

  /** Applied by the server, the update sets all three fields, keeps the bill's
      appointment and date, and stores the total the form displayed. */
  lemma UpdateStoresDisplayedTotal(stored: BillData, fee: Option<int>, charges: Option<int>, status: PaymentStatus)
    ensures var r := Billing.Updated(stored, UpdatePayload(fee, charges, status));
      && r.consultationFee == Some(OrZero(fee)) && r.testCharges == Some(OrZero(charges))
      && r.paymentStatus == Some(status)
      && r.appointment == stored.appointment && r.billDate == stored.billDate && r.id == stored.id
      && r.totalAmount == Some(OrZero(fee) + OrZero(charges))
  {
  }

  /** Submitting the form untouched leaves a consistent bill's total as it was; a
      missing fee or charge is stored as an explicit 0 and a missing status as
      PENDING. */
  lemma UntouchedSubmitKeepsTotal(stored: BillData)
    requires stored.TotalConsistent()
    ensures var r := Billing.Updated(stored, UpdatePayload(InitialAmount(stored.consultationFee),
                                                          InitialAmount(stored.testCharges),
                                                          InitialStatus(stored.paymentStatus)));
      && r.totalAmount == stored.totalAmount
      && r.consultationFee == Some(OrZero(stored.consultationFee))
      && r.testCharges == Some(OrZero(stored.testCharges))
      && r.paymentStatus == Some(InitialStatus(stored.paymentStatus))
  {
  }

  /** The form's state; a money box holding no number is None. */
  class EditBillForm {
    var consultationFee: Option<int>
    var testCharges: Option<int>
    var paymentStatus: PaymentStatus
    var error: string
    const bill: BillData

    /** The form as opened on `bill`. */
    constructor (bill: BillData)
      ensures consultationFee == InitialAmount(bill.consultationFee)
      ensures testCharges == InitialAmount(bill.testCharges)
      ensures paymentStatus == InitialStatus(bill.paymentStatus)
      ensures error == "" && this.bill == bill
    {
      consultationFee := InitialAmount(bill.consultationFee);
      testCharges := InitialAmount(bill.testCharges);
      paymentStatus := InitialStatus(bill.paymentStatus);
      error := "";
      this.bill := bill;
    }

    /** `handleChange` on the fee box: no other field changes. */
    method HandleFeeChange(value: Option<int>)
      modifies this`consultationFee
      ensures consultationFee == value
    {
      consultationFee := value;
    }

    /** `handleChange` on the charges box: no other field changes. */
    method HandleChargesChange(value: Option<int>)
      modifies this`testCharges
      ensures testCharges == value
    {
      testCharges := value;
    }

    /** `handleChange` on the status select: no other field changes. */
    method HandleStatusChange(value: PaymentStatus)
      modifies this`paymentStatus
      ensures paymentStatus == value
    {
      paymentStatus := value;
    }

    /** `calculateTotal`: fee + charges, an invalid amount counting as 0. */
    function CalculateTotal(): (r: int)
      reads this
      ensures r == TotalOf(consultationFee, testCharges)
    {
      OrZero(consultationFee) + OrZero(testCharges)
    }

    /** `handleSubmit`: there is no validation, so every submit sends one update
        of `bill.id`; a failed request (`updateFails`) shows the generic error. */
    method HandleSubmit(updateFails: bool) returns (id: Option<int>, payload: BillData)
      modifies this`error
      ensures id == bill.id
      ensures payload == UpdatePayload(consultationFee, testCharges, paymentStatus)
      ensures error == if updateFails then "Failed to update bill. Please try again." else ""
    {
      error := "";
      id := bill.id;
      payload := UpdatePayload(consultationFee, testCharges, paymentStatus);
      if updateFails {
        error := "Failed to update bill. Please try again.";
      }
    }
  }
}
