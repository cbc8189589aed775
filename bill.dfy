/** The bill entity: one bill per appointment, a consultation fee, test charges
    and a total kept equal to their sum. */
module BillEntity {
  import opened Base
  import opened Entities

  datatype PaymentStatus = PENDING | PAID | CANCELLED

  /** The total of a fee and test charges, a missing amount counting as 0. */
  function TotalOf(fee: Option<int>, charges: Option<int>): (r: int)
    ensures fee.None? && charges.None? ==> r == 0
    ensures fee.None? ==> r == OrZero(charges)
    ensures charges.None? ==> r == OrZero(fee)
  {
    OrZero(fee) + OrZero(charges)
  }

  /** A bill as a value: the JSON form exchanged with the client. */
  datatype BillData = BillData(
    id: Option<int>,
    appointment: Option<Appointment>,
    consultationFee: Option<int>,
    testCharges: Option<int>,
    totalAmount: Option<int>,
    paymentStatus: Option<PaymentStatus>,
    billDate: Option<int>)
  {
    /** The stored total is the fee plus the charges. */
    predicate TotalConsistent() {
      totalAmount == Some(TotalOf(consultationFee, testCharges))
    }

    /** The id of the referenced appointment, if any. */
    function AppointmentId(): Option<int> {
      if appointment.Some? then appointment.value.id else None
    }
  }

  /** The persistent bill, whose fields the service mutates in place. */
  class Bill {
    var id: Option<int>
    var appointment: Option<Appointment>
    var consultationFee: Option<int>
    var testCharges: Option<int>
    var totalAmount: Option<int>
    var paymentStatus: Option<PaymentStatus>
    var billDate: Option<int>

    /** A bill built from its JSON form. */
    constructor (d: BillData)
      ensures Data() == d
    {
      id := d.id;
      appointment := d.appointment;
      consultationFee := d.consultationFee;
      testCharges := d.testCharges;
      totalAmount := d.totalAmount;
      paymentStatus := d.paymentStatus;
      billDate := d.billDate;
    }

    /** The current field values of this bill. */
    function Data(): BillData
      reads this
    {
      BillData(id, appointment, consultationFee, testCharges, totalAmount, paymentStatus, billDate)
    }

    /** Sets the total to fee + charges.  Only `totalAmount` may change, and a bill
        whose total is already consistent is left as it was, so a second call
        changes nothing. */
    method CalculateTotal()
      modifies this`totalAmount
      ensures Data().TotalConsistent()
      ensures Data() == old(Data()).(totalAmount := Some(TotalOf(consultationFee, testCharges)))
      ensures old(Data().TotalConsistent()) ==> Data() == old(Data())
    {
      totalAmount := Some(OrZero(consultationFee) + OrZero(testCharges));
    }
  }
}
